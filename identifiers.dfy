/** The identifier helpers of the API server: the mobile-number check shared
    by the register and OTP endpoints, the UPI id built from a mobile number,
    and the IFSC string placed in every transaction payload. */
module Identifiers {
  import opened Wrappers

  /** A decimal digit (ASCII). */
  predicate IsDigit(c: char) {
    '0' <= c <= '9'
  }

  /** Every character of s is a digit; vacuously true of the empty string. */
  function AllDigits(s: string): (b: bool)
    ensures b <==> forall i :: 0 <= i < |s| ==> IsDigit(s[i])
  {
    if |s| == 0 then true else IsDigit(s[0]) && AllDigits(s[1..])
  }

  const MobileLength: nat := 10

  /** A mobile number as the server accepts it: ten digits, any first digit. */
  predicate IsMobile(m: string) {
    |m| == MobileLength && forall i :: 0 <= i < |m| ==> IsDigit(m[i])
  }

  /** The test `not mobile or len(mobile) != 10 or not mobile.isdigit()`,
      applied to the (possibly missing) `mobile` field of a request. */
  function MobileAccepted(mobile: Option<string>): (ok: bool)
    ensures ok <==> mobile.Some? && IsMobile(mobile.value)
  {
    match mobile
    case None => false
    case Some(m) => !(m == [] || |m| != MobileLength || !AllDigits(m))
  }

  /** No rule on the leading digit: replacing the first digit of an accepted
      mobile by any digit gives an accepted mobile. */
  lemma {:induction false} AnyLeadingDigitAccepted(m: string, c: char)
    requires IsMobile(m) && IsDigit(c)
    ensures MobileAccepted(Some([c] + m[1..]))
  {
    var m' := [c] + m[1..];
    forall i | 0 <= i < |m'| ensures IsDigit(m'[i]) {
      if i > 0 { assert m'[i] == m[i]; }
    }
  }

  // ---------------------------------------------------------------- UPI id

  const Handles: seq<string> := ["@ybl", "@okhdfcbank", "@oksbi", "@okicici"]

  /** upi is the mobile number followed by one of the fixed handles. */
  predicate IsUpiOf(upi: string, mobile: string) {
    |mobile| < |upi| && upi[..|mobile|] == mobile && upi[|mobile|..] in Handles
  }

  /** generate_upi_id with the random choice of handle passed in. */
  function UpiId(mobile: string, handle: nat): (upi: string)
    requires handle < |Handles|
    ensures |upi| > |mobile|
  {
    mobile + Handles[handle]
  }

  /** A generated UPI id starts with the mobile and ends with a listed handle. */
  lemma {:induction false} UpiIdOf(mobile: string, handle: nat)
    requires handle < |Handles|
    ensures IsUpiOf(UpiId(mobile, handle), mobile)
  {
    var upi := UpiId(mobile, handle);
    assert upi[..|mobile|] == mobile && upi[|mobile|..] == Handles[handle];
  }

  /** The position of a handle in the fixed list. */
  function HandleIndex(suffix: string): (r: Option<nat>)
    ensures r.Some? ==> r.value < |Handles| && Handles[r.value] == suffix
    ensures r.None? ==> suffix !in Handles
  {
    if suffix == Handles[0] then Some(0)
    else if suffix == Handles[1] then Some(1)
    else if suffix == Handles[2] then Some(2)
    else if suffix == Handles[3] then Some(3)
    else None
  }

  /** Splits a UPI id into its mobile number and handle index. */
  function ParseUpi(upi: string): Option<(string, nat)> {
    if |upi| < MobileLength || !IsMobile(upi[..MobileLength]) then None
    else match HandleIndex(upi[MobileLength..])
      case None => None
      case Some(h) => Some((upi[..MobileLength], h))
  }

  lemma {:induction false} UpiRoundTrip(mobile: string, handle: nat)
    requires IsMobile(mobile) && handle < |Handles|
    ensures ParseUpi(UpiId(mobile, handle)) == Some((mobile, handle))
  {
    var upi := UpiId(mobile, handle);
    assert upi[..MobileLength] == mobile;
    assert upi[MobileLength..] == Handles[handle];
  }

  lemma {:induction false} ParseUpiSound(upi: string)
    ensures ParseUpi(upi).Some? ==>
      var (m, h) := ParseUpi(upi).value;
      IsMobile(m) && h < |Handles| && UpiId(m, h) == upi
  {
    if ParseUpi(upi).Some? {
      assert upi == upi[..MobileLength] + upi[MobileLength..];
    }
  }

  /** Two UPI ids built from mobiles of the same length are equal only when
      both the mobiles and the handles are; so distinct registered mobiles
      never collide on the UNIQUE upi_id column. */
  lemma {:induction false} UpiIdInjective(m1: string, h1: nat, m2: string, h2: nat)
    requires |m1| == |m2| && h1 < |Handles| && h2 < |Handles|
    ensures UpiId(m1, h1) == UpiId(m2, h2) <==> m1 == m2 && h1 == h2
  {
    if UpiId(m1, h1) == UpiId(m2, h2) {
      assert m1 == UpiId(m1, h1)[..|m1|];
      assert Handles[h1] == UpiId(m1, h1)[|m1|..];
    }
  }

  /** UPI ids of two different mobiles of the same length differ. */
  lemma {:induction false} DistinctMobilesDistinctUpi(upi1: string, m1: string, upi2: string, m2: string)
    requires IsUpiOf(upi1, m1) && IsUpiOf(upi2, m2) && |m1| == |m2| && m1 != m2
    ensures upi1 != upi2
  {
  }

  // ------------------------------------------------------------------ IFSC

  const Banks: seq<string> := ["HDFC", "ICIC", "SBIN", "PUNB", "YESB"]
  const BranchFiller: string := "000"
  const BranchDigits: nat := 3
  /** 4 bank letters, the filler and 3 digits: one short of the 11
      characters of a standard IFSC. */
  const IfscLength: nat := 10

  predicate IsIfsc(code: string) {
    |code| == IfscLength && code[..4] in Banks && code[4..7] == BranchFiller && AllDigits(code[7..])
  }

  /** get_valid_random_ifsc with the bank choice and the three digits passed in. */
  function Ifsc(bank: nat, digits: string): (code: string)
    requires bank < |Banks| && |digits| == BranchDigits && AllDigits(digits)
    ensures |code| == IfscLength
  {
    Banks[bank] + BranchFiller + digits
  }

  /** A generated IFSC is a listed bank code, the filler and three digits. */
  lemma {:induction false} IfscWellFormed(bank: nat, digits: string)
    requires bank < |Banks| && |digits| == BranchDigits && AllDigits(digits)
    ensures IsIfsc(Ifsc(bank, digits))
  {
    var code := Ifsc(bank, digits);
    assert code[..4] == Banks[bank] && code[4..7] == BranchFiller && code[7..] == digits;
  }

  function BankIndex(prefix: string): (r: Option<nat>)
    ensures r.Some? ==> r.value < |Banks| && Banks[r.value] == prefix
    ensures r.None? ==> prefix !in Banks
  {
    if prefix == Banks[0] then Some(0)
    else if prefix == Banks[1] then Some(1)
    else if prefix == Banks[2] then Some(2)
    else if prefix == Banks[3] then Some(3)
    else if prefix == Banks[4] then Some(4)
    else None
  }

  /** Recovers the bank index and branch digits of a generated IFSC. */
  function ParseIfsc(code: string): Option<(nat, string)> {
    if |code| != IfscLength || code[4..7] != BranchFiller || !AllDigits(code[7..]) then None
    else match BankIndex(code[..4])
      case None => None
      case Some(b) => Some((b, code[7..]))
  }

  lemma {:induction false} IfscRoundTrip(bank: nat, digits: string)
    requires bank < |Banks| && |digits| == BranchDigits && AllDigits(digits)
    ensures ParseIfsc(Ifsc(bank, digits)) == Some((bank, digits))
  {
    var code := Ifsc(bank, digits);
    assert code[..4] == Banks[bank] && code[4..7] == BranchFiller && code[7..] == digits;
  }

  /** ParseIfsc accepts exactly the strings Ifsc can produce. */
  lemma {:induction false} ParseIfscComplete(code: string)
    ensures ParseIfsc(code).Some? <==> IsIfsc(code)
    ensures ParseIfsc(code).Some? ==>
      var (b, d) := ParseIfsc(code).value;
      b < |Banks| && |d| == BranchDigits && AllDigits(d) && Ifsc(b, d) == code
  {
    if ParseIfsc(code).Some? {
      assert code == code[..4] + code[4..7] + code[7..];
    }
  }
}
