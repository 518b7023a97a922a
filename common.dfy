/// Small shared vocabulary: optional values, results, and the few string
/// helpers (decimal rendering of line numbers and argument counts) that
/// several components use.
module Common {

  datatype Option<+T> = None | Some(value: T)

  datatype Result<+T, +E> = Ok(value: T) | Err(error: E)

  /// The decimal digit character for `d`.
  function DigitChar(d: nat): (c: char)
    requires d < 10
    ensures '0' <= c <= '9'
    ensures (c as int) - ('0' as int) == d
  {
    (('0' as int) + d) as char
  }

  /// `n` written in decimal without leading zeros, as JavaScript's template
  /// literals render a non-negative integer.
  function NatToString(n: nat): (s: string)
    ensures |s| > 0
    ensures forall i :: 0 <= i < |s| ==> '0' <= s[i] <= '9'
    ensures |s| > 1 ==> s[0] != '0'
    ensures DecimalValueOf(s) == n
    decreases n
  {
    if n < 10 then [DigitChar(n)]
    else
      var prefix := NatToString(n / 10);
      assert prefix[0] == (prefix + [DigitChar(n % 10)])[0];
      prefix + [DigitChar(n % 10)]
  }

  /// The value of a string of decimal digits, read left to right.
  function DecimalValueOf(s: string): nat
    requires forall i :: 0 <= i < |s| ==> '0' <= s[i] <= '9'
  {
    if s == [] then 0
    else 10 * DecimalValueOf(s[..|s| - 1]) + ((s[|s| - 1] as int) - ('0' as int))
  }
}
