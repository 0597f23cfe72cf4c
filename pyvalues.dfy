/**
 * The slice of Python the core relies on: the values a YAML or JSON document
 * loads into, their truthiness, the character classes Python's `re` and `str`
 * use for Unicode strings, `str.strip()`, `int()` and `str()` of an integer.
 */
module PyValues {
  import opened Wrappers

  /** A value as `yaml.safe_load` or `json.loads` produces it (dictionaries keyed by strings). */
  datatype Value =
    | Null
    | Bool(b: bool)
    | Int(i: int)
    | Float(x: real)
    | Str(s: string)
    | List(items: seq<Value>)
    | Dict(entries: map<string, Value>)

  /** Python truthiness: None, False, 0, 0.0, "", [] and {} are false. */
  predicate Truthy(v: Value) {
    match v
    case Null => false
    case Bool(b) => b
    case Int(i) => i != 0
    case Float(x) => x != 0.0
    case Str(s) => s != []
    case List(items) => items != []
    case Dict(entries) => entries != map[]
  }

  // ---------------------------------------------------------------- characters

  predicate IsAsciiDigit(c: char) {
    '0' <= c <= '9'
  }

  predicate InDecimalBlock(n: int, start: int) {
    start <= n < start + 10
  }

  /**
   * Python's `\d` for str patterns: a character of general category Nd.
   * Every Nd character of Unicode 15.0 lies in one of these 68 blocks of ten.
   */
  predicate IsDecimal(c: char) {
    var n := c as int;
    if n < 0x80 then 0x30 <= n <= 0x39
    else if n < 0x0660 then false
    else if n < 0x1C5A then
      InDecimalBlock(n, 0x0660) || InDecimalBlock(n, 0x06F0) || InDecimalBlock(n, 0x07C0) ||
      InDecimalBlock(n, 0x0966) || InDecimalBlock(n, 0x09E6) || InDecimalBlock(n, 0x0A66) ||
      InDecimalBlock(n, 0x0AE6) || InDecimalBlock(n, 0x0B66) || InDecimalBlock(n, 0x0BE6) ||
      InDecimalBlock(n, 0x0C66) || InDecimalBlock(n, 0x0CE6) || InDecimalBlock(n, 0x0D66) ||
      InDecimalBlock(n, 0x0DE6) || InDecimalBlock(n, 0x0E50) || InDecimalBlock(n, 0x0ED0) ||
      InDecimalBlock(n, 0x0F20) || InDecimalBlock(n, 0x1040) || InDecimalBlock(n, 0x1090) ||
      InDecimalBlock(n, 0x17E0) || InDecimalBlock(n, 0x1810) || InDecimalBlock(n, 0x1946) ||
      InDecimalBlock(n, 0x19D0) || InDecimalBlock(n, 0x1A80) || InDecimalBlock(n, 0x1A90) ||
      InDecimalBlock(n, 0x1B50) || InDecimalBlock(n, 0x1BB0) || InDecimalBlock(n, 0x1C40) ||
      InDecimalBlock(n, 0x1C50)
    else if n < 0xA620 then false
    else if n < 0x10000 then
      InDecimalBlock(n, 0xA620) || InDecimalBlock(n, 0xA8D0) ||
      InDecimalBlock(n, 0xA900) || InDecimalBlock(n, 0xA9D0) || InDecimalBlock(n, 0xA9F0) ||
      InDecimalBlock(n, 0xAA50) || InDecimalBlock(n, 0xABF0) || InDecimalBlock(n, 0xFF10)
    else
      InDecimalBlock(n, 0x104A0) || InDecimalBlock(n, 0x10D30) || InDecimalBlock(n, 0x11066) ||
      InDecimalBlock(n, 0x110F0) || InDecimalBlock(n, 0x11136) || InDecimalBlock(n, 0x111D0) ||
      InDecimalBlock(n, 0x112F0) || InDecimalBlock(n, 0x11450) || InDecimalBlock(n, 0x114D0) ||
      InDecimalBlock(n, 0x11650) || InDecimalBlock(n, 0x116C0) || InDecimalBlock(n, 0x11730) ||
      InDecimalBlock(n, 0x118E0) || InDecimalBlock(n, 0x11950) || InDecimalBlock(n, 0x11C50) ||
      InDecimalBlock(n, 0x11D50) || InDecimalBlock(n, 0x11DA0) || InDecimalBlock(n, 0x11F50) ||
      InDecimalBlock(n, 0x16A60) || InDecimalBlock(n, 0x16AC0) || InDecimalBlock(n, 0x16B50) ||
      InDecimalBlock(n, 0x1D7CE) || InDecimalBlock(n, 0x1D7D8) || InDecimalBlock(n, 0x1D7E2) ||
      InDecimalBlock(n, 0x1D7EC) || InDecimalBlock(n, 0x1D7F6) || InDecimalBlock(n, 0x1E140) ||
      InDecimalBlock(n, 0x1E2F0) || InDecimalBlock(n, 0x1E4F0) || InDecimalBlock(n, 0x1E950) ||
      InDecimalBlock(n, 0x1FBF0)
  }

  /** Python's `\s` for str patterns and `str.isspace()`: the same set of characters. */
  predicate IsSpace(c: char) {
    var n := c as int;
    (0x09 <= n <= 0x0D) || (0x1C <= n <= 0x20) || n == 0x85 || n == 0xA0 || n == 0x1680 ||
    (0x2000 <= n <= 0x200A) || n == 0x2028 || n == 0x2029 || n == 0x202F || n == 0x205F ||
    n == 0x3000
  }

  /**
   * Python's `\w` for str patterns (letters and numbers of every script, and `_`),
   * approximated by the scripts that occur in the messages this system relays:
   * ASCII, every decimal digit, Latin-1, Latin Extended-A/B, basic Greek and
   * Cyrillic, kana, CJK ideographs, Hangul syllables and full-width Latin letters.
   */
  predicate IsWordChar(c: char) {
    var n := c as int;
    if n < 0x80 then
      ('a' <= c <= 'z') || ('A' <= c <= 'Z') || ('0' <= c <= '9') || c == '_'
    else
      IsDecimal(c) ||
      n == 0xAA || n == 0xB2 || n == 0xB3 || n == 0xB5 || n == 0xB9 || n == 0xBA ||
      (0xBC <= n <= 0xBE) || (0xC0 <= n <= 0xFF && n != 0xD7 && n != 0xF7) ||
      (0x100 <= n <= 0x24F) ||
      (0x391 <= n <= 0x3A1) || (0x3A3 <= n <= 0x3A9) || (0x3B1 <= n <= 0x3C9) ||
      (0x400 <= n <= 0x45F) ||
      (0x3041 <= n <= 0x3096) || (0x30A1 <= n <= 0x30FA) ||
      (0x3400 <= n <= 0x4DBF) || (0x4E00 <= n <= 0x9FFF) || (0xAC00 <= n <= 0xD7A3) ||
      (0xFF21 <= n <= 0xFF3A) || (0xFF41 <= n <= 0xFF5A)
  }

  // ---------------------------------------------------------------- str.strip()

  /** The number of whitespace characters `s` starts with. */
  function LeadingSpaces(s: string): (k: nat)
    ensures k <= |s|
    ensures forall i | 0 <= i < k :: IsSpace(s[i])
    ensures k == |s| || !IsSpace(s[k])
  {
    if s != [] && IsSpace(s[0]) then 1 + LeadingSpaces(s[1..]) else 0
  }

  function StripRight(s: string): (r: string)
    ensures |r| <= |s| && r == s[..|r|]
    ensures r == [] || !IsSpace(r[|r| - 1])
    ensures forall i | |r| <= i < |s| :: IsSpace(s[i])
  {
    if s != [] && IsSpace(s[|s| - 1]) then StripRight(s[..|s| - 1]) else s
  }

  /** `s.strip()`: the part of `s` between its leading and its trailing whitespace. */
  function Strip(s: string): (r: string)
    ensures r == [] || (!IsSpace(r[0]) && !IsSpace(r[|r| - 1]))
    ensures LeadingSpaces(s) + |r| <= |s| && r == s[LeadingSpaces(s)..LeadingSpaces(s) + |r|]
    ensures forall i | LeadingSpaces(s) + |r| <= i < |s| :: IsSpace(s[i])
  {
    StripRight(s[LeadingSpaces(s)..])
  }

  lemma StripUnpadded(s: string)
    requires s != [] && !IsSpace(s[0]) && !IsSpace(s[|s| - 1])
    ensures Strip(s) == s
  {
    assert LeadingSpaces(s) == 0;
    assert s[0..] == s;
  }

  // ---------------------------------------------------------------- str(int) and int(str)

  function DigitChar(d: nat): char
    requires d < 10
  {
    ('0' as int + d) as char
  }

  function DigitValue(c: char): nat
    requires IsAsciiDigit(c)
  {
    c as int - '0' as int
  }

  /** The decimal numeral of `n`, as Python's `str()` writes a non-negative int. */
  function NatToString(n: nat): (s: string)
    ensures s != [] && forall i | 0 <= i < |s| :: IsAsciiDigit(s[i])
    decreases n
  {
    if n < 10 then [DigitChar(n)] else NatToString(n / 10) + [DigitChar(n % 10)]
  }

  /** `str(n)` for an int, which is also what an f-string inserts. */
  function IntToString(n: int): string {
    if n < 0 then "-" + NatToString(-n) else NatToString(n)
  }

  /** The number an all-digit string denotes. */
  function DigitsValue(s: string): nat
    requires forall i | 0 <= i < |s| :: IsAsciiDigit(s[i])
  {
    if s == [] then 0 else DigitsValue(s[..|s| - 1]) * 10 + DigitValue(s[|s| - 1])
  }

  /** Digits with single underscores between them, as in `1_000`. */
  predicate IsUnderscoredDigits(s: string) {
    s != [] && IsAsciiDigit(s[0]) && IsAsciiDigit(s[|s| - 1]) &&
    (forall i | 0 <= i < |s| :: IsAsciiDigit(s[i]) || s[i] == '_') &&
    (forall i | 0 <= i < |s| - 1 :: !(s[i] == '_' && s[i + 1] == '_'))
  }

  function DropUnderscores(s: string): (r: string)
    requires forall i | 0 <= i < |s| :: IsAsciiDigit(s[i]) || s[i] == '_'
    ensures forall i | 0 <= i < |r| :: IsAsciiDigit(r[i])
  {
    if s == [] then []
    else if s[0] == '_' then DropUnderscores(s[1..])
    else [s[0]] + DropUnderscores(s[1..])
  }

  /** `int(s)` for a str in base 10: optional surrounding whitespace and sign, ASCII digits. */
  function ParseInt(s: string): Option<int> {
    ParseSigned(Strip(s))
  }

  /** An optional sign followed by digits with single underscores between them. */
  function ParseSigned(t: string): Option<int> {
    if t != [] && (t[0] == '-' || t[0] == '+') then
      var magnitude := ParseUnderscored(t[1..]);
      if magnitude.Some? && t[0] == '-' then Some(-magnitude.value) else magnitude
    else
      ParseUnderscored(t)
  }

  function ParseUnderscored(body: string): Option<int> {
    if IsUnderscoredDigits(body) then Some(DigitsValue(DropUnderscores(body))) else None
  }

  /** Truncation toward zero, as `int()` converts a float. */
  function Truncate(x: real): int {
    if x >= 0.0 then x.Floor else -((-x).Floor)
  }

  /** `int(v)`, or None where Python raises. */
  function ToInt(v: Value): Option<int> {
    match v
    case Bool(b) => Some(if b then 1 else 0)
    case Int(i) => Some(i)
    case Float(x) => Some(Truncate(x))
    case Str(s) => ParseInt(s)
    case _ => None
  }

  lemma {:induction false} DigitsValueOfNatToString(n: nat)
    ensures DigitsValue(NatToString(n)) == n
    decreases n
  {
    var s := NatToString(n);
    if n >= 10 {
      DigitsValueOfNatToString(n / 10);
      assert s[..|s| - 1] == NatToString(n / 10);
    }
  }

  lemma {:induction false} DropUnderscoresOfDigits(s: string)
    requires forall i | 0 <= i < |s| :: IsAsciiDigit(s[i])
    ensures DropUnderscores(s) == s
  {
    if s != [] {
      DropUnderscoresOfDigits(s[1..]);
    }
  }

  lemma ParseDigitBody(body: string)
    requires body != [] && forall i | 0 <= i < |body| :: IsAsciiDigit(body[i])
    ensures IsUnderscoredDigits(body) && DropUnderscores(body) == body
  {
    DropUnderscoresOfDigits(body);
  }

  /** Digits and the minus sign are not whitespace, so `strip` leaves a numeral alone. */
  lemma DigitNotSpace(c: char)
    requires IsAsciiDigit(c) || c == '-'
    ensures !IsSpace(c)
  {
  }

  lemma ParseUnsigned(digits: string)
    requires digits != [] && forall i | 0 <= i < |digits| :: IsAsciiDigit(digits[i])
    ensures ParseInt(digits) == Some(DigitsValue(digits) as int)
  {
    DigitNotSpace(digits[0]);
    DigitNotSpace(digits[|digits| - 1]);
    StripUnpadded(digits);
    ParseDigitBody(digits);
    assert ParseSigned(digits) == ParseUnderscored(digits);
  }

  lemma ParseNegative(s: string)
    requires |s| >= 2 && s[0] == '-' && forall i | 1 <= i < |s| :: IsAsciiDigit(s[i])
    ensures ParseInt(s) == Some(-(DigitsValue(s[1..]) as int))
  {
    DigitNotSpace(s[0]);
    DigitNotSpace(s[|s| - 1]);
    StripUnpadded(s);
    ParseDigitBody(s[1..]);
  }

  /** `int(str(n)) == n`: the numeral Python prints for an int reads back as that int. */
  lemma IntToStringRoundTrip(n: int)
    ensures ParseInt(IntToString(n)) == Some(n)
  {
    var m: nat := if n < 0 then -n else n;
    DigitsValueOfNatToString(m);
    if n < 0 {
      ParseNegative(IntToString(n));
      assert IntToString(n)[1..] == NatToString(m);
    } else {
      ParseUnsigned(NatToString(m));
    }
  }
}
