/** Small shared vocabulary: optional values, Python's KeyError, pandas-style
    comparisons in which a missing value (NaN) makes every comparison false,
    and the two string helpers the status messages need. */
module Common {

  datatype Option<+T> = None | Some(value: T)

  /** What a Python expression that indexes a dictionary or a DataFrame with
      `[...]` yields: its value, or the KeyError raised for the missing key. */
  datatype Outcome<+T> = Ok(value: T) | KeyError(key: string)

  /** `a < b` on two cells; NaN on either side makes it false. */
  predicate Lt(a: Option<real>, b: Option<real>)
  {
    a.Some? && b.Some? && a.value < b.value
  }

  /** `a > b` on two cells; NaN on either side makes it false. */
  predicate Gt(a: Option<real>, b: Option<real>)
  {
    a.Some? && b.Some? && a.value > b.value
  }

  function DigitChar(d: nat): char
    requires d < 10
  {
    "0123456789"[d]
  }

  /** Decimal rendering of a natural number, as Python's f-string prints an int. */
  function NatToDecimal(n: nat): string
    decreases n
  {
    if n < 10 then [DigitChar(n)] else NatToDecimal(n / 10) + [DigitChar(n % 10)]
  }

  function IntToDecimal(i: int): string
  {
    if i < 0 then "-" + NatToDecimal(-i) else NatToDecimal(i)
  }

  /** `str.upper()` restricted to ASCII letters. */
  function UpperAscii(s: string): string
  {
    seq(|s|, i requires 0 <= i < |s| =>
      if 'a' <= s[i] <= 'z' then (s[i] as int - 32) as char else s[i])
  }
}
