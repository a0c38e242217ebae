/** The .NET string and number primitives the generator relies on:
    `String.Trim`, `String.ToLower`, ignore-case comparison and `UInt32.TryParse`. */
module Text {
  import opened Wrappers

  const UInt32Limit: int := 0x1_0000_0000

  /** The values of a C# `uint`. */
  type UInt32 = x: int | 0 <= x < UInt32Limit

  /** `Char.IsWhiteSpace`: the Unicode separators plus the control characters
      U+0009..U+000D, U+0085 and U+00A0. */
  predicate IsWhiteSpace(c: char) {
    c == ' ' || '\t' <= c <= '\r' || c == '\U{85}' || c == '\U{A0}' || c == '\U{1680}'
    || '\U{2000}' <= c <= '\U{200A}' || c == '\U{2028}' || c == '\U{2029}'
    || c == '\U{202F}' || c == '\U{205F}' || c == '\U{3000}'
  }

  /** Number of white-space characters at the start of `s`. */
  function LeadingWhiteSpace(s: string): (n: nat)
    ensures n <= |s|
    ensures forall i :: 0 <= i < n ==> IsWhiteSpace(s[i])
    ensures n < |s| ==> !IsWhiteSpace(s[n])
  {
    if |s| > 0 && IsWhiteSpace(s[0]) then 1 + LeadingWhiteSpace(s[1..]) else 0
  }

  /** Number of white-space characters at the end of `s`. */
  function TrailingWhiteSpace(s: string): (n: nat)
    ensures n <= |s|
    ensures forall i :: |s| - n <= i < |s| ==> IsWhiteSpace(s[i])
    ensures n < |s| ==> !IsWhiteSpace(s[|s| - 1 - n])
  {
    if |s| > 0 && IsWhiteSpace(s[|s| - 1]) then 1 + TrailingWhiteSpace(s[..|s| - 1]) else 0
  }

  /** `String.Trim()`: the longest infix of `s` that neither starts nor ends with
      white space, obtained by cutting only white space from both ends. */
  function Trim(s: string): (r: string)
    ensures LeadingWhiteSpace(s) + |r| <= |s|
    ensures r == s[LeadingWhiteSpace(s)..LeadingWhiteSpace(s) + |r|]
    ensures forall i :: LeadingWhiteSpace(s) + |r| <= i < |s| ==> IsWhiteSpace(s[i])
    ensures |r| > 0 ==> !IsWhiteSpace(r[0]) && !IsWhiteSpace(r[|r| - 1])
  {
    var rest := s[LeadingWhiteSpace(s)..];
    rest[..|rest| - TrailingWhiteSpace(rest)]
  }

  /** Trimming a string that has no white space at either end leaves it alone. */
  lemma TrimUntrimmed(s: string)
    requires |s| > 0 ==> !IsWhiteSpace(s[0]) && !IsWhiteSpace(s[|s| - 1])
    ensures Trim(s) == s
  {
    assert LeadingWhiteSpace(s) == 0;
  }

  /** Trimming strips leading blanks from a text that is otherwise trimmed. */
  lemma TrimLeadingBlank(s: string)
    requires |s| > 0 && !IsWhiteSpace(s[0]) && !IsWhiteSpace(s[|s| - 1])
    ensures Trim([' '] + s) == s
  {
    var t := [' '] + s;
    assert t[1..] == s;
    assert LeadingWhiteSpace(s) == 0;
    assert LeadingWhiteSpace(t) == 1;
  }

  /** `Trim` is idempotent. */
  lemma TrimIdempotent(s: string)
    ensures Trim(Trim(s)) == Trim(s)
  {
    TrimUntrimmed(Trim(s));
  }

  /** Lower-case mapping of one character (ASCII letters only). */
  function LowerChar(c: char): char {
    if 'A' <= c <= 'Z' then (c as int + 32) as char else c
  }

  /** `String.ToLower()`, restricted to ASCII case folding. */
  function ToLower(s: string): (r: string)
    ensures |r| == |s|
    ensures forall i :: 0 <= i < |s| ==> !('A' <= r[i] <= 'Z')
    ensures forall i :: 0 <= i < |s| && !('A' <= s[i] <= 'Z') ==> r[i] == s[i]
    ensures forall i :: 0 <= i < |s| && 'A' <= s[i] <= 'Z' ==> r[i] as int == s[i] as int + ('a' as int - 'A' as int)
  {
    seq(|s|, i requires 0 <= i < |s| => LowerChar(s[i]))
  }

  /** `String.Equals(a, b, ...IgnoreCase)`, with ASCII case folding. */
  predicate EqualsIgnoreCase(a: string, b: string) {
    ToLower(a) == ToLower(b)
  }

  predicate IsDigit(c: char) {
    '0' <= c <= '9'
  }

  predicate AllDigits(s: string) {
    forall i :: 0 <= i < |s| ==> IsDigit(s[i])
  }

  /** The value of a string of decimal digits, most significant first. */
  function DigitsValue(s: string): nat
    requires AllDigits(s)
  {
    if |s| == 0 then 0 else DigitsValue(s[..|s| - 1]) * 10 + (s[|s| - 1] as int - '0' as int)
  }

  /** The white space `NumberStyles.Integer` allows around a number: U+0009..U+000D
      and the space. */
  predicate IsNumberSpace(c: char) {
    c == ' ' || '\t' <= c <= '\r'
  }

  /** `UInt32.TryParse` with the default number style: optional surrounding number
      white space, an optional '+', then decimal digits whose value fits in 32
      bits. */
  function ParseUInt32(s: string): (r: Option<UInt32>)
    ensures r.Some? ==> forall i :: 0 <= i < |s| ==> IsNumberSpace(s[i]) || IsDigit(s[i]) || s[i] == '+'
    ensures r.Some? ==> exists i :: 0 <= i < |s| && IsDigit(s[i])
  {
    var lead := LeadingWhiteSpace(s);
    var t := Trim(s);
    var padded := forall i | 0 <= i < |s| && !(lead <= i < lead + |t|) :: IsNumberSpace(s[i]);
    var k := if |t| > 0 && t[0] == '+' then 1 else 0;
    var digits := t[k..];
    if padded && |digits| > 0 && AllDigits(digits) && DigitsValue(digits) < UInt32Limit then
      assert forall i :: lead <= i < lead + |t| ==> s[i] == t[i - lead];
      assert s[lead + k] == digits[0];
      Some(DigitsValue(digits))
    else
      None
  }

  /** The value `UInt32.TryParse(s, out v)` leaves in `v`: the parsed number, or 0
      when parsing fails (the out-parameter is overwritten either way). */
  function TryParseUInt32(s: string): (v: UInt32)
    ensures ParseUInt32(s).None? ==> v == 0
    ensures ParseUInt32(s).Some? ==> v == ParseUInt32(s).value
  {
    match ParseUInt32(s)
    case Some(v) => v
    case None => 0
  }

  /** The parsed number is the value of the trimmed digits after an optional '+';
      digits worth 2^32 or more make parsing fail. */
  lemma ParseValue(s: string)
    ensures var t := Trim(s);
      var digits := t[if |t| > 0 && t[0] == '+' then 1 else 0..];
      && (ParseUInt32(s).Some? ==>
            |digits| > 0 && AllDigits(digits) && ParseUInt32(s).value == DigitsValue(digits))
      && (|digits| > 0 && AllDigits(digits) && DigitsValue(digits) >= UInt32Limit ==> ParseUInt32(s).None?)
  {
  }

  /** A no-break space is white space to `Trim` but not around a number. */
  lemma NoBreakSpaceRejected()
    ensures ParseUInt32("\U{A0}4") == None
  {
    var s := "\U{A0}4";
    assert !IsNumberSpace(s[0]) && !IsDigit(s[0]) && s[0] != '+';
  }

  /** Spaces and line breaks around a number are accepted. */
  lemma NumberSpaceAccepted()
    ensures ParseUInt32(" 4\r\n") == Some(4)
  {
    var s := " 4\r\n";
    assert IsWhiteSpace(s[0]) && !IsWhiteSpace(s[1]) && IsWhiteSpace(s[2]) && IsWhiteSpace(s[3]);
    assert LeadingWhiteSpace(s) == 1;
    assert |Trim(s)| == 1;
    assert Trim(s) == "4";
    assert DigitsValue("4") == 4;
  }

  /** An empty or all-blank text never parses, so `TryParseUInt32` yields 0. */
  lemma ParseBlank(s: string)
    requires forall i :: 0 <= i < |s| ==> IsWhiteSpace(s[i])
    ensures ParseUInt32(s) == None && TryParseUInt32(s) == 0
  {
    assert LeadingWhiteSpace(s) == |s|;
  }

  function DigitChar(d: nat): (c: char)
    requires d < 10
    ensures IsDigit(c) && c as int - '0' as int == d
  {
    ('0' as int + d) as char
  }

  /** The decimal representation of `n`, without sign or leading zeros. */
  function DecimalString(n: nat): (r: string)
    ensures |r| > 0 && AllDigits(r)
    ensures r[0] != '0' || n == 0
  {
    if n < 10 then [DigitChar(n)] else DecimalString(n / 10) + [DigitChar(n % 10)]
  }

  /** Reading back a decimal representation gives the number. */
  lemma {:induction false} DecimalValue(n: nat)
    ensures DigitsValue(DecimalString(n)) == n
  {
    var s := DecimalString(n);
    if n >= 10 {
      DecimalValue(n / 10);
      assert s[..|s| - 1] == DecimalString(n / 10);
    } else {
      assert s[..0] == [];
    }
  }

  /** Round trip: `UInt32.TryParse` of the decimal text of a 32-bit value gives it back. */
  lemma ParseDecimal(n: UInt32)
    ensures ParseUInt32(DecimalString(n)) == Some(n)
    ensures TryParseUInt32(DecimalString(n)) == n
  {
    var s := DecimalString(n);
    TrimUntrimmed(s);
    DecimalValue(n);
  }
}
