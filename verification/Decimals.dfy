/** Decimal numerals as the Go standard library reads and writes them, base 10 and 64 bits wide. */
module Decimals {
  import opened Options

  const MAX_UINT64: nat := 0xFFFF_FFFF_FFFF_FFFF
  const MAX_INT64: nat := 0x7FFF_FFFF_FFFF_FFFF

  predicate IsDigit(c: char) {
    '0' <= c <= '9'
  }

  function Digit(c: char): nat
    requires IsDigit(c)
  {
    c as int - '0' as int
  }

  predicate IsNumeral(s: string) {
    s != "" && forall i | 0 <= i < |s| :: IsDigit(s[i])
  }

  function Value(s: string): nat
    requires forall i | 0 <= i < |s| :: IsDigit(s[i])
  {
    if s == "" then 0 else 10 * Value(s[..|s| - 1]) + Digit(s[|s| - 1])
  }

  /** strconv.ParseUint(s, 10, 64). */
  function ParseUint(s: string): Option<nat> {
    if IsNumeral(s) && Value(s) <= MAX_UINT64 then Some(Value(s)) else None
  }

  /** strconv.ParseInt(s, 10, 64): an optional sign and a numeral in range. */
  function ParseInt(s: string): Option<int> {
    if s != "" && s[0] == '-' then
      match ParseUint(s[1..])
      case Some(n) => if n <= MAX_INT64 + 1 then Some(-(n as int)) else None
      case None => None
    else
      match ParseUint(if s != "" && s[0] == '+' then s[1..] else s)
      case Some(n) => if n <= MAX_INT64 then Some(n) else None
      case None => None
  }

  function Render(n: nat): string {
    var last := [(n % 10) as char + '0'];
    if n < 10 then last else Render(n / 10) + last
  }

  lemma {:induction false} RenderRoundTrip(n: nat)
    ensures IsNumeral(Render(n)) && Value(Render(n)) == n
  {
    if n >= 10 {
      RenderRoundTrip(n / 10);
      var s := Render(n);
      assert s[..|s| - 1] == Render(n / 10);
    } else {
      assert Render(n)[..0] == "";
    }
  }

  lemma RenderParses(n: nat)
    ensures n <= MAX_UINT64 ==> ParseUint(Render(n)) == Some(n)
    ensures n <= MAX_INT64 ==> ParseInt(Render(n)) == Some(n)
  {
    RenderRoundTrip(n);
    assert IsDigit(Render(n)[0]);
  }

  /** Whatever ParseInt accepts ends in a digit. */
  lemma ParsedEndsInDigit(s: string)
    requires ParseInt(s).Some?
    ensures s != "" && IsDigit(s[|s| - 1])
  {
    var t := if s[0] == '-' || s[0] == '+' then s[1..] else s;
    assert t[|t| - 1] == s[|s| - 1];
  }
}
