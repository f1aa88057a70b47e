/** Unsigned 32-bit decimals, as `str::parse::<u32>` reads them. */
module Decimal {
  import opened Prelude

  const U32_LIMIT: nat := 0x1_0000_0000

  predicate IsDigit(c: char) {
    '0' <= c <= '9'
  }

  predicate AllDigits(s: string) {
    forall i :: 0 <= i < |s| ==> IsDigit(s[i])
  }

  function ValueOf(s: string): nat
    requires AllDigits(s)
  {
    if s == [] then 0 else 10 * ValueOf(s[..|s| - 1]) + (s[|s| - 1] as int - '0' as int)
  }

  /** A leading '+' is allowed; nothing, other characters or an overflow is an error. */
  function ParseU32(s: string): Option<nat> {
    var digits := if s != [] && s[0] == '+' then s[1..] else s;
    if digits != [] && AllDigits(digits) && ValueOf(digits) < U32_LIMIT then Some(ValueOf(digits)) else None
  }

  function ToDecimal(n: nat): (s: string)
    ensures s != [] && AllDigits(s)
    ensures ValueOf(s) == n
  {
    var last := [(n % 10 + '0' as int) as char];
    if n < 10 then
      assert last[..0] == [];
      last
    else
      var most := ToDecimal(n / 10);
      assert (most + last)[..|most|] == most;
      most + last
  }

  lemma ParseInvertsPrint(n: nat)
    ensures ParseU32(ToDecimal(n)) == ParseU32("+" + ToDecimal(n)) == if n < 0x1_0000_0000 then Some(n) else None
  {
    assert ("+" + ToDecimal(n))[1..] == ToDecimal(n);
    assert IsDigit(ToDecimal(n)[0]);
  }

  /** Nothing but digits, with one '+' in front at most, is a number. */
  lemma ParseRejects(s: string, k: nat)
    requires k < |s| && !IsDigit(s[k]) && (k > 0 || s[0] != '+' || |s| == 1)
    ensures ParseU32(s) == None && ParseU32("") == None
  {
    var digits := if s[0] == '+' then s[1..] else s;
    assert s[0] == '+' && k > 0 ==> digits[k - 1] == s[k];
  }
}
