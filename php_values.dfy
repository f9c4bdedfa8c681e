/**
 * PHP's dynamic values, as far as the Customer entity needs them, and the
 * language's `(bool)`, `(int)`, string-conversion, `??` and `trim` rules
 * for those values.
 */
module PhpValues {

  const PhpIntMin: int := -0x8000_0000_0000_0000
  const PhpIntMax: int := 0x7FFF_FFFF_FFFF_FFFF

  /** A PHP integer on a 64-bit platform. */
  type PhpInt = i: int | -0x8000_0000_0000_0000 <= i <= 0x7FFF_FFFF_FFFF_FFFF

  /**
   * A raw attribute value as the remote service hands it over: a scalar or
   * an array with string keys. Floats and objects are not modelled.
   */
  datatype Value =
    | Null
    | Bool(b: bool)
    | Int(i: PhpInt)
    | Str(s: string)
    | Arr(entries: map<string, Value>)

  datatype Option<T> = None | Some(value: T)

  // ---------------------------------------------------------------------------
  // (bool)

  /** The values PHP converts to `false`. */
  predicate IsFalsy(v: Value) {
    v == Null || v == Bool(false) || v == Int(0) || v == Str("") || v == Str("0") || v == Arr(map[])
  }

  /** PHP's `(bool)` cast: false exactly on the falsy values. */
  function ToBool(v: Value): (r: bool)
    ensures !r <==> IsFalsy(v)
  {
    match v
    case Null => false
    case Bool(b) => b
    case Int(i) => i != 0
    case Str(s) => s != "" && s != "0"
    case Arr(m) => |m| != 0
  }

  // ---------------------------------------------------------------------------
  // Decimal digits

  predicate IsDigit(c: char) { '0' <= c <= '9' }

  function DigitValue(c: char): (d: nat)
    requires IsDigit(c)
    ensures d < 10
  {
    (c - '0') as nat
  }

  function DigitChar(d: nat): (c: char)
    requires d < 10
    ensures IsDigit(c) && DigitValue(c) == d
  {
    ('0' as int + d) as char
  }

  /** The value of a string of decimal digits, most significant first. */
  function DigitsValue(ds: string): nat
    requires forall i :: 0 <= i < |ds| ==> IsDigit(ds[i])
  {
    if |ds| == 0 then 0 else 10 * DigitsValue(ds[..|ds| - 1]) + DigitValue(ds[|ds| - 1])
  }

  /** The length of the run of decimal digits that `s` starts with. */
  function DigitRun(s: string): (n: nat)
    ensures n <= |s|
    ensures forall i :: 0 <= i < n ==> IsDigit(s[i])
    ensures n < |s| ==> !IsDigit(s[n])
  {
    if |s| > 0 && IsDigit(s[0]) then 1 + DigitRun(s[1..]) else 0
  }

  /** The value of the digits `s` starts with; 0 when it starts with none. */
  function LeadingDigitsValue(s: string): nat {
    DigitsValue(s[..DigitRun(s)])
  }

  /** The canonical decimal spelling of a natural number, without leading zeros. */
  function NatToDecimal(n: nat): (ds: string)
    ensures |ds| > 0
    ensures forall i :: 0 <= i < |ds| ==> IsDigit(ds[i])
  {
    if n < 10 then [DigitChar(n)] else NatToDecimal(n / 10) + [DigitChar(n % 10)]
  }

  /** PHP's string conversion of an integer, as used by `.` and string interpolation. */
  function IntToDecimal(i: int): string {
    if i < 0 then "-" + NatToDecimal(-i) else NatToDecimal(i)
  }

  /**
   * A canonical integer spelling: an optional "-", then decimal digits with
   * no leading zero; zero is spelt "0" alone.
   */
  predicate IsCanonicalDecimal(s: string) {
    var ds := if |s| > 0 && s[0] == '-' then s[1..] else s;
    && |ds| > 0
    && (forall i :: 0 <= i < |ds| ==> IsDigit(ds[i]))
    && (ds[0] == '0' ==> s == "0")
  }

  /** `s` spells `i` in decimal: a "-" before the digits exactly when `i` is negative, and digits whose value is `|i|`. */
  predicate SpellsInt(s: string, i: int) {
    if i < 0 then
      && |s| > 1 && s[0] == '-'
      && (forall k :: 1 <= k < |s| ==> IsDigit(s[k]))
      && DigitsValue(s[1..]) == -i
    else
      && |s| > 0
      && (forall k :: 0 <= k < |s| ==> IsDigit(s[k]))
      && DigitsValue(s) == i
  }

  /** A positive number's spelling does not start with a zero. */
  lemma {:induction false} NatToDecimalNoLeadingZero(n: nat)
    ensures n > 0 ==> NatToDecimal(n)[0] != '0'
  {
    if n >= 10 {
      NatToDecimalNoLeadingZero(n / 10);
    }
  }

  /** PHP spells every integer canonically. */
  lemma IntToDecimalCanonical(i: int)
    ensures IsCanonicalDecimal(IntToDecimal(i))
  {
    if i < 0 {
      var ds := NatToDecimal(-i);
      NatToDecimalNoLeadingZero(-i);
      assert ("-" + ds)[1..] == ds;
    } else {
      NatToDecimalNoLeadingZero(i);
    }
  }

  lemma {:induction false} NatToDecimalValue(n: nat)
    ensures DigitsValue(NatToDecimal(n)) == n
  {
    var ds := NatToDecimal(n);
    if n >= 10 {
      NatToDecimalValue(n / 10);
      assert ds[..|ds| - 1] == NatToDecimal(n / 10);
    }
  }

  /** PHP's spelling of an integer has that integer's sign and digit value. */
  lemma IntToDecimalSpells(i: int)
    ensures SpellsInt(IntToDecimal(i), i)
  {
    if i < 0 {
      var ds := NatToDecimal(-i);
      NatToDecimalValue(-i);
      assert ("-" + ds)[1..] == ds;
    } else {
      NatToDecimalValue(i);
    }
  }

  // ---------------------------------------------------------------------------
  // (int)

  /** Characters PHP skips before the digits of a numeric string. */
  predicate IsNumericSpace(c: char) {
    c == ' ' || c == '\t' || c == '\n' || c == '\r' || c == '\U{B}' || c == '\U{C}'
  }

  /** How many whitespace characters `s` starts with. */
  function NumericSpaceCount(s: string): (k: nat)
    ensures k <= |s|
    ensures forall i :: 0 <= i < k ==> IsNumericSpace(s[i])
    ensures k < |s| ==> !IsNumericSpace(s[k])
  {
    if |s| > 0 && IsNumericSpace(s[0]) then 1 + NumericSpaceCount(s[1..]) else 0
  }

  /** An out-of-range integer saturates at the platform bounds. */
  function Saturate(n: int): (r: PhpInt)
    ensures PhpIntMin <= n <= PhpIntMax ==> r == n
    ensures n > PhpIntMax ==> r == PhpIntMax
    ensures n < PhpIntMin ==> r == PhpIntMin
  {
    if n > PhpIntMax then PhpIntMax else if n < PhpIntMin then PhpIntMin else n
  }

  /**
   * 2^1024 - 2^970, halfway between the largest double and 2^1024: the least
   * magnitude a correctly rounded `strtod` turns into an infinity.
   */
  const DoubleOverflow: nat := 179769313486231580793728971405303415079934132710037826936173778980444968292764750946649017977587207096330286416692887910946555547851940402630657488671505820681908902000708383676273854845817711531764475730270069855571366959622842914819860834936475292719074168444365510704342711559699508093042880177904174497792

  /**
   * The integer a signed digit run becomes. A run that fits is read exactly;
   * one that does not is read as a double and capped at the 64-bit bounds,
   * except that a double that overflowed to an infinity gives 0.
   */
  function CapDigits(n: int): PhpInt {
    if n >= DoubleOverflow || n <= -(DoubleOverflow as int) then 0 else Saturate(n)
  }

  /**
   * `(int)` on a string: skip leading whitespace, read an optional sign and
   * the longest run of decimal digits that follows; no digits gives 0. A
   * run above the 64-bit range is capped at the largest integer, unless it
   * is beyond the range of a double, which gives 0.
   */
  function StrToInt(s: string): (r: PhpInt)
    ensures (forall i :: 0 <= i < |s| ==> !IsDigit(s[i])) ==> r == 0
    ensures |s| > 0 && IsDigit(s[0]) ==>
      var n := DigitsValue(s[..DigitRun(s)]);
      && (n <= PhpIntMax ==> r == n)
      && (PhpIntMax < n < DoubleOverflow ==> r == PhpIntMax)
      && (n >= DoubleOverflow ==> r == 0)
  {
    var t := s[NumericSpaceCount(s)..];
    if |t| > 0 && t[0] == '-' then CapDigits(-(LeadingDigitsValue(t[1..]) as int))
    else if |t| > 0 && t[0] == '+' then CapDigits(LeadingDigitsValue(t[1..]))
    else CapDigits(LeadingDigitsValue(t))
  }

  /** PHP's `(int)` cast. */
  function ToInt(v: Value): (r: PhpInt)
    ensures IsIntCastOf(v, r)
  {
    match v
    case Null => 0
    case Bool(b) => if b then 1 else 0
    case Int(i) => i
    case Str(s) => StrToInt(s)
    case Arr(m) => if |m| == 0 then 0 else 1
  }

  /** What `(int)` promises, case by case on the raw value. */
  predicate IsIntCastOf(v: Value, r: PhpInt) {
    && (v == Null ==> r == 0)
    && (v == Bool(false) ==> r == 0)
    && (v == Bool(true) ==> r == 1)
    && (v.Int? ==> r == v.i)
    && (v.Str? ==> r == StrToInt(v.s))
    && (v.Arr? ==> r == if v.entries == map[] then 0 else 1)
  }

  /** A string that is all digits reads back as its decimal value, when that fits. */
  lemma DigitStringToInt(ds: string)
    requires |ds| > 0 && forall i :: 0 <= i < |ds| ==> IsDigit(ds[i])
    requires DigitsValue(ds) <= PhpIntMax
    ensures StrToInt(ds) == DigitsValue(ds)
  {
    assert NumericSpaceCount(ds) == 0;
    assert ds[0..] == ds;
    assert ds[..DigitRun(ds)] == ds;
  }

  /**
   * A digits-only string whose value exceeds the 64-bit range reads as the
   * largest PHP integer, or as 0 once it exceeds the range of a double.
   */
  lemma BigDigits(ds: string)
    requires |ds| > 0 && forall i :: 0 <= i < |ds| ==> IsDigit(ds[i])
    requires DigitsValue(ds) > PhpIntMax
    ensures DigitsValue(ds) < DoubleOverflow ==> StrToInt(ds) == PhpIntMax
    ensures DigitsValue(ds) >= DoubleOverflow ==> StrToInt(ds) == 0
  {
    assert NumericSpaceCount(ds) == 0;
    assert ds[0..] == ds;
    assert ds[..DigitRun(ds)] == ds;
  }

  /** `(int)` undoes PHP's string conversion of an integer: `(int)(string)$i === $i`. */
  lemma IntStringRoundTrip(i: PhpInt)
    ensures ToInt(Str(IntToDecimal(i))) == i
  {
    if i < 0 {
      var n: nat := -(i as int);
      var ds := NatToDecimal(n);
      var s := "-" + ds;
      assert NumericSpaceCount(s) == 0;
      assert s[0..] == s && s[1..] == ds;
      assert ds[..DigitRun(ds)] == ds;
      NatToDecimalValue(n);
    } else {
      var ds := NatToDecimal(i);
      NatToDecimalValue(i);
      DigitStringToInt(ds);
    }
  }

  // ---------------------------------------------------------------------------
  // String conversion

  /**
   * PHP's string conversion, as applied by the concatenation operator `.`:
   * null and false give "", true gives "1", an array gives "Array", and an
   * integer gives its canonical decimal spelling, which `(int)` reads back
   * as that integer.
   */
  function ToStr(v: Value): (r: string)
    ensures v == Null || v == Bool(false) ==> r == ""
    ensures v == Bool(true) ==> r == "1"
    ensures v.Str? ==> r == v.s
    ensures v.Arr? ==> r == "Array"
    ensures v.Int? ==> SpellsInt(r, v.i) && IsCanonicalDecimal(r) && StrToInt(r) == v.i
  {
    match v
    case Null => ""
    case Bool(b) => if b then "1" else ""
    case Int(i) => IntStringRoundTrip(i); IntToDecimalCanonical(i); IntToDecimalSpells(i); IntToDecimal(i)
    case Str(s) => s
    case Arr(_) => "Array"
  }

  // ---------------------------------------------------------------------------
  // `??` on an array offset

  /** `isset($m[key])`: the key is present and its value is not null. */
  predicate IsSet(m: map<string, Value>, key: string) {
    key in m && !m[key].Null?
  }

  /** `$m[key] ?? fallback`. */
  function Coalesce(m: map<string, Value>, key: string, fallback: Value): (r: Value)
    ensures IsSet(m, key) ==> r == m[key]
    ensures !IsSet(m, key) ==> r == fallback
  {
    if key in m && !m[key].Null? then m[key] else fallback
  }

  // ---------------------------------------------------------------------------
  // trim

  /** The characters `trim` strips by default: " \t\n\r\0\x0B". */
  predicate IsTrimChar(c: char) {
    c == ' ' || c == '\t' || c == '\n' || c == '\r' || c == '\0' || c == '\U{B}'
  }

  /** Neither end of `s` is a character `trim` would strip. */
  predicate IsTrimmed(s: string) {
    |s| == 0 || (!IsTrimChar(s[0]) && !IsTrimChar(s[|s| - 1]))
  }

  /** How many strippable characters `s` starts with. */
  function LeadingTrimCount(s: string): (k: nat)
    ensures k <= |s|
    ensures forall i :: 0 <= i < k ==> IsTrimChar(s[i])
    ensures k < |s| ==> !IsTrimChar(s[k])
  {
    if |s| > 0 && IsTrimChar(s[0]) then 1 + LeadingTrimCount(s[1..]) else 0
  }

  /** Where the run of strippable characters that `s` ends with begins. */
  function TrailingTrimStart(s: string): (e: nat)
    ensures e <= |s|
    ensures forall i :: e <= i < |s| ==> IsTrimChar(s[i])
    ensures e > 0 ==> !IsTrimChar(s[e - 1])
  {
    if |s| > 0 && IsTrimChar(s[|s| - 1]) then TrailingTrimStart(s[..|s| - 1]) else |s|
  }

  /**
   * `r` is what is left of `s` once the first `k` and the last
   * `|s| - k - |r|` characters, all strippable, are removed.
   */
  predicate StripsTo(s: string, k: nat, r: string) {
    && k + |r| <= |s|
    && r == s[k..k + |r|]
    && (forall i :: 0 <= i < k ==> IsTrimChar(s[i]))
    && (forall i :: k + |r| <= i < |s| ==> IsTrimChar(s[i]))
  }

  /**
   * PHP's `trim` with its default character list: strip from the front, then
   * from the back. The result is the part of `s` left after removing the
   * strippable characters at both ends, and neither of its ends is strippable.
   */
  function Trim(s: string): (r: string)
    ensures IsTrimmed(r)
    ensures exists k :: StripsTo(s, k, r)
  {
    var k := LeadingTrimCount(s);
    var e := TrailingTrimStart(s);
    if e <= k then
      assert StripsTo(s, 0, []);
      []
    else
      assert StripsTo(s, k, s[k..e]);
      s[k..e]
  }

  /** Trimming an already trimmed string changes nothing. */
  lemma TrimOfTrimmed(s: string)
    requires IsTrimmed(s)
    ensures Trim(s) == s
  {
  }

  /** `trim` is idempotent. */
  lemma TrimIdempotent(s: string)
    ensures Trim(Trim(s)) == Trim(s)
  {
  }

  /** Trimming `s + " "` for a trimmed `s` gives back `s`. */
  lemma TrimWithTrailingSpace(s: string)
    requires IsTrimmed(s)
    ensures Trim(s + " ") == s
  {
  }

  /** Trimming `" " + s` for a trimmed `s` gives back `s`. */
  lemma TrimWithLeadingSpace(s: string)
    requires IsTrimmed(s)
    ensures Trim(" " + s) == s
  {
  }
}
