/** Memory limits: a count, a unit and nothing else, turned into bytes or refused. */
module MemoryLimit {
  import opened Text
  import opened Decimals

  datatype Unit = Unit(suffix: string, mult: nat)

  datatype Reason = NoUnit | NotWhole | NotPositive | OutOfRange

  datatype Limit = Bytes(bytes: nat) | Refused(reason: Reason)

  /** Longest first. */
  const UNITS: seq<Unit> := [
    Unit("GB", 0x4000_0000), Unit("MB", 0x10_0000), Unit("KB", 0x400), Unit("B", 1),
    Unit("G", 0x4000_0000), Unit("M", 0x10_0000), Unit("K", 0x400)]

  function Upper(c: char): char {
    if 'a' <= c <= 'z' then c - 'a' + 'A' else c
  }

  function ToUpper(s: string): (r: string)
    ensures |r| == |s|
  {
    seq(|s|, i requires 0 <= i < |s| => Upper(s[i]))
  }

  predicate HasSuffix(s: string, suffix: string) {
    |suffix| <= |s| && s[|s| - |suffix|..] == suffix
  }

  function CutSuffix(s: string, suffix: string): string
    requires HasSuffix(s, suffix)
  {
    s[..|s| - |suffix|]
  }

  /** The first unit from position i on that s ends with; |units| if there is none. */
  function FirstFrom(units: seq<Unit>, s: string, i: nat): (u: nat)
    requires i <= |units|
    ensures i <= u <= |units|
    ensures u < |units| ==> HasSuffix(s, units[u].suffix)
    ensures forall j | i <= j < u :: !HasSuffix(s, units[j].suffix)
    decreases |units| - i
  {
    if i == |units| || HasSuffix(s, units[i].suffix) then i else FirstFrom(units, s, i + 1)
  }

  function FirstUnit(s: string): nat {
    FirstFrom(UNITS, s, 0)
  }

  /** What a count of a unit comes to. */
  function Counted(num: string, mult: nat): Limit {
    match ParseInt(num)
    case None => Refused(NotWhole)
    case Some(v) =>
      if v <= 0 then Refused(NotPositive)
      else if v * mult > MAX_INT64 then Refused(OutOfRange)
      else Bytes(v * mult)
  }

  function MemoryOf(limit: string): Limit {
    var upper := ToUpper(limit);
    var u := FirstUnit(upper);
    if u == |UNITS| then Refused(NoUnit) else Counted(CutSuffix(upper, UNITS[u].suffix), UNITS[u].mult)
  }

  /** The range check divides, so that the product is only formed when it fits. */
  lemma DivisionGuardsTheProduct(v: nat, mult: nat, max: nat)
    requires mult > 0
    ensures v > max / mult <==> v * mult > max
  {
    var q, r := max / mult, max % mult;
    assert max == q * mult + r && r < mult;
    if v > q {
      assert v * mult >= (q + 1) * mult;
    } else {
      assert v * mult <= q * mult;
    }
  }

  method ParseMemory(limit: string) returns (r: Limit)
    ensures r == MemoryOf(limit)
  {
    var upper := ToUpper(limit);
    var num, mult := "", 0;
    var i := 0;
    while i < |UNITS| && mult == 0
      invariant i <= |UNITS|
      invariant mult == 0 ==> FirstUnit(upper) == FirstFrom(UNITS, upper, i)
      invariant mult != 0 ==> FirstUnit(upper) < |UNITS|
                              && num == CutSuffix(upper, UNITS[FirstUnit(upper)].suffix)
                              && mult == UNITS[FirstUnit(upper)].mult
    {
      if HasSuffix(upper, UNITS[i].suffix) {
        num, mult := CutSuffix(upper, UNITS[i].suffix), UNITS[i].mult;
      }
      i := i + 1;
    }
    if mult == 0 {
      return Refused(NoUnit);
    }
    var parsed := ParseInt(num);
    if parsed.None? {
      return Refused(NotWhole);
    }
    var v := parsed.value;
    if v <= 0 {
      return Refused(NotPositive);
    }
    DivisionGuardsTheProduct(v, mult, MAX_INT64);
    if v > MAX_INT64 / mult {
      return Refused(OutOfRange);
    }
    return Bytes(v * mult);
  }

  // ----- What the table's order is for -----

  ghost predicate LongestFirst(units: seq<Unit>) {
    forall i, j | 0 <= i < j < |units| :: |units[j].suffix| <= |units[i].suffix|
  }

  lemma TableIsLongestFirst()
    ensures LongestFirst(UNITS)
  {
  }

  /** In a table ordered longest first, no unit the input ends with is longer than the first one found. */
  lemma FirstIsLongest(units: seq<Unit>, s: string, u: nat)
    requires LongestFirst(units) && u < |units| && HasSuffix(s, units[u].suffix)
    ensures FirstFrom(units, s, 0) < |units| && |units[u].suffix| <= |units[FirstFrom(units, s, 0)].suffix|
  {
    var first := FirstFrom(units, s, 0);
    assert first <= u;
  }

  /** Behind a digit, the only unit that can be found is the one that was written. */
  lemma UnitBehindDigit(num: string, u: nat)
    requires u < |UNITS| && num != "" && IsDigit(num[|num| - 1])
    ensures FirstUnit(num + UNITS[u].suffix) == u
  {
    var s := num + UNITS[u].suffix;
    assert HasSuffix(s, UNITS[u].suffix);
    var first := FirstUnit(s);
    TableIsLongestFirst();
    FirstIsLongest(UNITS, s, u);
    assert first <= u;
  }

  /** A limit is accepted exactly when its upper-cased text is a positive whole number followed by a
      unit, with a product that fits a signed 64-bit integer; and then it is that product. */
  lemma AcceptsExactly(limit: string, bytes: nat)
    ensures MemoryOf(limit) == Bytes(bytes)
       <==> exists u: nat, num: string :: Denotes(limit, u, num, bytes)
  {
    var upper := ToUpper(limit);
    var first := FirstUnit(upper);
    if MemoryOf(limit) == Bytes(bytes) {
      assert Denotes(limit, first, CutSuffix(upper, UNITS[first].suffix), bytes);
    }
    forall u: nat, num: string | Denotes(limit, u, num, bytes) ensures MemoryOf(limit) == Bytes(bytes) {
      SplitsOneWay(limit, u, num);
    }
  }

  ghost predicate Splits(limit: string, u: nat, num: string) {
    u < |UNITS| && ToUpper(limit) == num + UNITS[u].suffix && ParseInt(num).Some?
  }

  /** Each refusal is given for its own reason: no unit at all, a count that is not positive, a
      product out of range; and otherwise that the count is not a whole number. */
  lemma RefusalsAreExact(limit: string)
    ensures MemoryOf(limit) == Refused(NoUnit)
       <==> forall u | 0 <= u < |UNITS| :: !HasSuffix(ToUpper(limit), UNITS[u].suffix)
    ensures MemoryOf(limit) == Refused(NotPositive)
       <==> exists u: nat, num: string :: Splits(limit, u, num) && ParseInt(num).value <= 0
    ensures MemoryOf(limit) == Refused(OutOfRange)
       <==> exists u: nat, num: string :: Splits(limit, u, num) && ParseInt(num).value > 0
                                          && ParseInt(num).value * UNITS[u].mult > MAX_INT64
  {
    var upper := ToUpper(limit);
    var first := FirstUnit(upper);
    if first < |UNITS| {
      var num := CutSuffix(upper, UNITS[first].suffix);
      assert upper == num + UNITS[first].suffix;
      assert ParseInt(num).Some? ==> Splits(limit, first, num);
    }
    forall u: nat, num: string | Splits(limit, u, num)
      ensures MemoryOf(limit) == Counted(num, UNITS[u].mult)
    {
      SplitsOneWay(limit, u, num);
    }
  }

  lemma SplitsOneWay(limit: string, u: nat, num: string)
    requires Splits(limit, u, num)
    ensures MemoryOf(limit) == Counted(num, UNITS[u].mult)
  {
    ParsedEndsInDigit(num);
    UnitBehindDigit(num, u);
    assert CutSuffix(ToUpper(limit), UNITS[u].suffix) == num;
  }

  ghost predicate Denotes(limit: string, u: nat, num: string, bytes: nat) {
    && Splits(limit, u, num)
    && ParseInt(num).value > 0
    && bytes == ParseInt(num).value * UNITS[u].mult
    && bytes <= MAX_INT64
  }

  /** Writing a count with its unit, in any case, and reading it back. */
  lemma RoundTrip(n: nat, u: nat, text: string)
    requires u < |UNITS| && n > 0 && n * UNITS[u].mult <= MAX_INT64
    requires ToUpper(text) == Render(n) + UNITS[u].suffix
    ensures MemoryOf(text) == Bytes(n * UNITS[u].mult)
  {
    RenderParses(n);
    assert n <= n * UNITS[u].mult;
    assert Denotes(text, u, Render(n), n * UNITS[u].mult);
    AcceptsExactly(text, n * UNITS[u].mult);
  }

  // ----- What the units mean -----

  predicate IsUnit(suffix: string, mult: nat) {
    || (suffix == "B" && mult == 1)
    || (suffix in {"K", "KB"} && mult == 1024)
    || (suffix in {"M", "MB"} && mult == 1024 * 1024)
    || (suffix in {"G", "GB"} && mult == 1024 * 1024 * 1024)
  }

  /** unit is suffix, each letter in upper or lower case. */
  predicate Spells(unit: string, suffix: string) {
    |unit| == |suffix| && forall i | 0 <= i < |suffix| :: unit[i] == suffix[i] || unit[i] as int == suffix[i] as int + 32
  }

  lemma UnitsAreListed(suffix: string, mult: nat) returns (u: nat)
    requires IsUnit(suffix, mult)
    ensures u < |UNITS| && UNITS[u] == Unit(suffix, mult)
  {
    u := if suffix == "GB" then 0 else if suffix == "MB" then 1 else if suffix == "KB" then 2 else if suffix == "B" then 3
         else if suffix == "G" then 4 else if suffix == "M" then 5 else 6;
  }

  lemma SpelledUpper(unit: string, suffix: string, mult: nat)
    requires IsUnit(suffix, mult) && Spells(unit, suffix)
    ensures ToUpper(unit) == suffix
  {
  }

  lemma NumeralsStay(num: string)
    requires ParseInt(num).Some?
    ensures ToUpper(num) == num
  {
    forall i | 0 <= i < |num| ensures Upper(num[i]) == num[i] {
      if i > 0 || !(num[0] == '-' || num[0] == '+') {
        var t := if num[0] == '-' || num[0] == '+' then num[1..] else num;
        assert IsDigit(t[if t == num then i else i - 1]);
      }
    }
  }

  /** A positive whole number and one of the seven units, in any case, is that many bytes, kibibytes,
      mebibytes or gibibytes, or out of range. */
  lemma UnitsMean(num: string, unit: string, suffix: string, mult: nat)
    requires ParseInt(num).Some? && ParseInt(num).value > 0 && IsUnit(suffix, mult) && Spells(unit, suffix)
    ensures MemoryOf(num + unit)
         == var bytes := ParseInt(num).value * mult; if bytes <= 0x7FFF_FFFF_FFFF_FFFF then Bytes(bytes) else Refused(OutOfRange)
  {
    var u := UnitsAreListed(suffix, mult);
    SpelledUpper(unit, suffix, mult);
    NumeralsStay(num);
    assert ToUpper(num + unit) == ToUpper(num) + ToUpper(unit);
    SplitsOneWay(num + unit, u, num);
  }

  // ----- The memory field of a resource specification -----

  function TrimLeft(s: string): string {
    if s != "" && IsSpace(s[0]) then TrimLeft(s[1..]) else s
  }

  function TrimRight(s: string): string {
    if s != "" && IsSpace(s[|s| - 1]) then TrimRight(s[..|s| - 1]) else s
  }

  /** No limit at all is zero; anything else is a limit or an error. */
  function MemoryField(mem: string): Limit {
    var m := TrimRight(TrimLeft(mem));
    if m == "" then Bytes(0) else MemoryOf(m)
  }

  lemma {:induction false} TrimLeftBlank(s: string)
    ensures TrimLeft(s) == "" <==> Blank(s)
    ensures TrimLeft(s) != "" ==> !IsSpace(TrimLeft(s)[0])
  {
    if s != "" && IsSpace(s[0]) {
      TrimLeftBlank(s[1..]);
      assert forall i | 0 < i < |s| :: s[i] == s[1..][i - 1];
    }
  }

  lemma {:induction false} TrimRightKeepsHead(s: string)
    requires s != "" && !IsSpace(s[0])
    ensures TrimRight(s) != ""
  {
    if IsSpace(s[|s| - 1]) {
      TrimRightKeepsHead(s[..|s| - 1]);
    }
  }

  lemma CountsArePositive(num: string, mult: nat)
    requires mult > 0
    ensures Counted(num, mult) != Bytes(0)
  {
    var parsed := ParseInt(num);
    if parsed.Some? && parsed.value > 0 {
      assert parsed.value * mult >= mult;
    }
  }

  lemma BytesArePositive(limit: string)
    ensures MemoryOf(limit) != Bytes(0)
  {
    var upper := ToUpper(limit);
    var u := FirstUnit(upper);
    if u < |UNITS| {
      CountsArePositive(CutSuffix(upper, UNITS[u].suffix), UNITS[u].mult);
    }
  }

  /** A limit the operator wrote never turns into no limit. */
  lemma WrittenLimitsAreNeverDropped(mem: string)
    ensures MemoryField(mem) == Bytes(0) <==> Blank(mem)
  {
    TrimLeftBlank(mem);
    if TrimLeft(mem) != "" {
      TrimRightKeepsHead(TrimLeft(mem));
      BytesArePositive(TrimRight(TrimLeft(mem)));
    }
  }

  lemma {:induction false} TrimLeftDrops(a: string, m: string)
    requires Blank(a) && (m != "" ==> !IsSpace(m[0]))
    ensures TrimLeft(a + m) == m
  {
    if a == "" {
      assert a + m == m;
    } else {
      assert (a + m)[1..] == a[1..] + m;
      TrimLeftDrops(a[1..], m);
    }
  }

  lemma {:induction false} TrimRightDrops(m: string, b: string)
    requires Blank(b) && (m != "" ==> !IsSpace(m[|m| - 1]))
    ensures TrimRight(m + b) == m
  {
    if b == "" {
      assert m + b == m;
    } else {
      assert (m + b)[..|m + b| - 1] == m + b[..|b| - 1];
      TrimRightDrops(m, b[..|b| - 1]);
    }
  }

  /** White space around a limit is no part of it. */
  lemma FieldIsTrimmed(a: string, m: string, b: string)
    requires Blank(a) && Blank(b) && m != "" && !IsSpace(m[0]) && !IsSpace(m[|m| - 1])
    ensures MemoryField(a + m + b) == MemoryOf(m)
  {
    assert a + m + b == a + (m + b);
    TrimLeftDrops(a, m + b);
    TrimRightDrops(m, b);
  }
}
