/** `strconv.FormatUint(v, 10)`: the decimal text of an unsigned 64-bit integer. */
module Strconv {
  import opened Builtin

  predicate IsDigit(c: char) {
    '0' <= c <= '9'
  }

  /** A non-empty string of decimal digits. */
  predicate IsDecimal(s: string) {
    |s| > 0 && forall i :: 0 <= i < |s| ==> IsDigit(s[i])
  }

  function DigitChar(d: nat): char
    requires d < 10
  {
    ('0' as int + d) as char
  }

  function DigitValue(c: char): nat
    requires IsDigit(c)
  {
    c as int - '0' as int
  }

  /** The number a string of decimal digits denotes, most significant digit first. */
  function DecimalValue(s: string): nat
    requires forall i :: 0 <= i < |s| ==> IsDigit(s[i])
  {
    if s == [] then 0 else DecimalValue(s[..|s| - 1]) * 10 + DigitValue(s[|s| - 1])
  }

  /**
   * FormatUint never returns the empty string, returns digits only, has no
   * leading zero, and denotes exactly `v`; so distinct values give distinct texts.
   */
  function FormatUint(v: uint64): (s: string)
    ensures IsDecimal(s)
    ensures s[0] == '0' ==> s == "0"
    ensures DecimalValue(s) == v as nat
    decreases v
  {
    if v < 10 then [DigitChar(v as nat)]
    else
      var prefix := FormatUint(v / 10);
      var s := prefix + [DigitChar((v % 10) as nat)];
      assert s[..|s| - 1] == prefix;
      s
  }

  lemma FormatUintInjective(a: uint64, b: uint64)
    ensures FormatUint(a) == FormatUint(b) <==> a == b
  {
  }
}
