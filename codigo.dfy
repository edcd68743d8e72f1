/** Inventory item codes: `format_codigo(n)` = "SIS" followed by `str(n).zfill(3)`. */
module Codigo {
  import opened Wrappers
  import opened Digits

  /** Python's `str(n)` for any integer: a '-' before the digits of a negative number. */
  function IntStr(n: int): string {
    if n < 0 then "-" + Str(-n) else Str(n)
  }

  /** Python's `str.zfill(width)`: pad with '0' on the left up to `width`, after a leading sign. */
  function ZFill(s: string, width: nat): string {
    if |s| >= width then s
    else if |s| > 0 && (s[0] == '-' || s[0] == '+') then [s[0]] + Zeros(width - |s|) + s[1..]
    else Zeros(width - |s|) + s
  }

  const Prefix: string := "SIS"

  /** The code of the item numbered `n`; it always starts with "SIS". */
  function FormatCodigo(n: int): (c: string)
    ensures |c| >= 4 && c[..3] == Prefix
  {
    Prefix + ZFill(IntStr(n), 3)
  }

  /** Reads a code back: "SIS", then an optional '-', then at least one decimal digit. */
  function ParseCodigo(c: string): Option<int> {
    if |c| < 4 || c[..3] != Prefix then None
    else
      var suffix := c[3..];
      if suffix[0] == '-' then
        if |suffix| > 1 && AllDigits(suffix[1..]) then Some(-(ParseNat(suffix[1..]) as int)) else None
      else if AllDigits(suffix) then Some(ParseNat(suffix) as int)
      else None
  }

  /** Numbers up to 999 give six characters: "SIS" and three digits, left-padded with '0'. */
  lemma ShortCodes(n: int)
    requires 0 <= n <= 999
    ensures |FormatCodigo(n)| == 6
    ensures FormatCodigo(n) == Prefix + Zeros(3 - |Str(n)|) + Str(n)
  {
    StrLength(n, 3);
  }

  /** From 1000 on the digits are `str(n)` in full, never truncated: FormatCodigo(1000) == "SIS1000". */
  lemma LongCodes(n: int)
    requires n >= 1000
    ensures FormatCodigo(n) == Prefix + Str(n)
    ensures |FormatCodigo(n)| > 6
  {
    StrLength(n, 3);
  }

  /** Parsing the code gives back the number, for every integer (negative ones keep their sign first). */
  lemma RoundTrip(n: int)
    ensures ParseCodigo(FormatCodigo(n)) == Some(n)
  {
    var c := FormatCodigo(n);
    assert c[3..] == ZFill(IntStr(n), 3);
    if n >= 0 {
      var s := Str(n);
      if |s| >= 3 {
        ParseStr(n);
      } else {
        ParseLeadingZeros(3 - |s|, s);
        ParseStr(n);
      }
    } else {
      var s := Str(-n);
      var suffix := c[3..];
      ParseStr(-n);
      if |s| + 1 >= 3 {
        assert suffix == "-" + s;
        assert suffix[1..] == s;
      } else {
        assert suffix == ['-'] + Zeros(2 - |s|) + s;
        assert suffix[1..] == Zeros(2 - |s|) + s;
        ParseLeadingZeros(2 - |s|, s);
      }
    }
  }

  /** Different numbers never share a code. */
  lemma Injective(m: int, n: int)
    requires FormatCodigo(m) == FormatCodigo(n)
    ensures m == n
  {
    RoundTrip(m);
    RoundTrip(n);
  }

  /** The example from the source comment: item 1 is "SIS001". */
  lemma FirstCode()
    ensures FormatCodigo(1) == "SIS001"
  {
    assert Str(1) == "1";
  }
}
