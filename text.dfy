/** String helpers the handlers rely on: ASCII lower-casing, whitespace trimming,
    decimal formatting and left padding, and the sequence-derived identifiers
    ("ORD-001", "SUP-012") built from them. */
module Text {

  /** Lower-cases one character (ASCII letters only). */
  function Lower(c: char): char {
    if 'A' <= c <= 'Z' then (c as int + 32) as char else c
  }

  /** `s.toLowerCase()`, character by character. */
  function LowerCase(s: string): (r: string)
    ensures |r| == |s|
    ensures forall i :: 0 <= i < |s| ==> r[i] == Lower(s[i])
  {
    if s == [] then [] else [Lower(s[0])] + LowerCase(s[1..])
  }

  /** The characters `String.prototype.trim` removes: white space and line terminators. */
  const Spaces: set<char> :=
    {'\t', '\n', '\U{B}', '\U{C}', '\r', ' ', '\U{A0}', '\U{1680}', '\U{2028}', '\U{2029}',
     '\U{202F}', '\U{205F}', '\U{3000}', '\U{FEFF}'}

  predicate IsSpace(c: char) {
    c in Spaces || '\U{2000}' <= c <= '\U{200A}'
  }

  /** Drops leading white space: the result is a suffix of `s`. */
  function TrimStart(s: string): (r: string)
    ensures |r| <= |s| && r == s[|s| - |r|..]
    ensures forall i :: 0 <= i < |s| - |r| ==> IsSpace(s[i])
    ensures r != [] ==> !IsSpace(r[0])
  {
    if s != [] && IsSpace(s[0]) then TrimStart(s[1..]) else s
  }

  /** Drops trailing white space: the result is a prefix of `s`. */
  function TrimEnd(s: string): (r: string)
    ensures |r| <= |s| && r == s[..|r|]
    ensures forall i :: |r| <= i < |s| ==> IsSpace(s[i])
    ensures r != [] ==> !IsSpace(r[|r| - 1])
  {
    if s != [] && IsSpace(s[|s| - 1]) then TrimEnd(s[..|s| - 1]) else s
  }

  /** `s.trim()`: the longest slice of `s` that neither starts nor ends with white space,
      everything cut away on either side being white space. */
  function Trim(s: string): (r: string)
    ensures r != [] ==> !IsSpace(r[0]) && !IsSpace(r[|r| - 1])
    ensures exists a :: TrimmedAt(s, a, r)
  {
    TrimmedAtStart(s);
    TrimEnd(TrimStart(s))
  }

  lemma {:induction false} TrimmedAtStart(s: string)
    ensures TrimmedAt(s, |s| - |TrimStart(s)|, TrimEnd(TrimStart(s)))
  {
    var t := TrimStart(s);
    Framed(s, |s| - |t|, t, TrimEnd(t));
  }

  /** A prefix `r` of the suffix `t == s[a..]`, with white space before `a` and after `r`
      in `t`, is a slice of `s` with only white space around it. */
  lemma {:induction false} Framed(s: string, a: nat, t: string, r: string)
    requires a <= |s| && t == s[a..]
    requires forall i :: 0 <= i < a ==> IsSpace(s[i])
    requires |r| <= |t| && r == t[..|r|]
    requires forall i :: |r| <= i < |t| ==> IsSpace(t[i])
    ensures TrimmedAt(s, a, r)
  {
    forall i | a + |r| <= i < |s|
      ensures IsSpace(s[i])
    {
      assert s[i] == t[i - a];
    }
  }

  /** `r` is the slice of `s` starting at `a`, with only white space around it. */
  predicate TrimmedAt(s: string, a: int, r: string) {
    && 0 <= a <= |s| - |r|
    && r == s[a..a + |r|]
    && (forall i :: 0 <= i < a ==> IsSpace(s[i]))
    && (forall i :: a + |r| <= i < |s| ==> IsSpace(s[i]))
  }

  predicate IsDigit(c: char) {
    '0' <= c <= '9'
  }

  predicate AllDigits(s: string) {
    forall i :: 0 <= i < |s| ==> IsDigit(s[i])
  }

  function Digit(d: nat): (c: char)
    requires d < 10
    ensures IsDigit(c)
  {
    ('0' as int + d) as char
  }

  /** `String(n)` for a natural number: its decimal digits, with no leading zero. */
  function Decimal(n: nat): (r: string)
    ensures 1 <= |r| && AllDigits(r)
    ensures r[0] == '0' ==> n == 0
  {
    if n < 10 then [Digit(n)] else Decimal(n / 10) + [Digit(n % 10)]
  }

  /** The number a string of decimal digits denotes (leading zeros allowed). */
  function DigitsValue(s: string): nat
    requires AllDigits(s)
  {
    if s == [] then 0 else DigitsValue(s[..|s| - 1]) * 10 + (s[|s| - 1] as int - '0' as int)
  }

  /** `n` copies of `c`. */
  function Repeat(c: char, n: nat): (r: string)
    ensures |r| == n
    ensures forall i :: 0 <= i < n ==> r[i] == c
  {
    if n == 0 then [] else [c] + Repeat(c, n - 1)
  }

  /** `s.padStart(width, fill)` with a one-character fill: `fill` repeated in front of `s`
      until the length reaches `width`; a string already that long is returned as it is. */
  function PadStart(s: string, width: nat, fill: char): (r: string)
    ensures |r| == if |s| < width then width else |s|
    ensures r[|r| - |s|..] == s
    ensures forall i :: 0 <= i < |r| - |s| ==> r[i] == fill
  {
    var pad := Repeat(fill, if |s| < width then width - |s| else 0);
    assert (pad + s)[|pad|..] == s;
    pad + s
  }

  /** The sequence-derived identifier `prefix + String(n).padStart(3, '0')`. */
  function SequenceId(prefix: string, n: nat): string {
    prefix + PadStart(Decimal(n), 3, '0')
  }

  lemma {:induction false} DecimalRoundTrip(n: nat)
    ensures DigitsValue(Decimal(n)) == n
  {
    if n >= 10 {
      var d := Decimal(n);
      assert d[..|d| - 1] == Decimal(n / 10);
      DecimalRoundTrip(n / 10);
    }
  }

  lemma {:induction false} ZerosValue(z: string)
    requires forall i :: 0 <= i < |z| ==> z[i] == '0'
    ensures AllDigits(z) && DigitsValue(z) == 0
  {
    if z != [] {
      ZerosValue(z[..|z| - 1]);
    }
  }

  /** Leading zeros do not change the value of a digit string. */
  lemma {:induction false} LeadingZerosValue(z: string, s: string)
    requires forall i :: 0 <= i < |z| ==> z[i] == '0'
    requires AllDigits(s)
    ensures AllDigits(z + s) && DigitsValue(z + s) == DigitsValue(s)
  {
    if s == [] {
      assert z + s == z;
      ZerosValue(z);
    } else {
      assert (z + s)[..|z + s| - 1] == z + s[..|s| - 1];
      LeadingZerosValue(z, s[..|s| - 1]);
    }
  }

  /** Reading the digits after the prefix of a sequence-derived identifier gives back
      the number it was built from. */
  lemma SequenceIdRoundTrip(prefix: string, n: nat)
    ensures AllDigits(SequenceId(prefix, n)[|prefix|..])
    ensures DigitsValue(SequenceId(prefix, n)[|prefix|..]) == n
  {
    var d := Decimal(n);
    var p := PadStart(d, 3, '0');
    var z := p[..|p| - |d|];
    assert p == z + d;
    assert SequenceId(prefix, n)[|prefix|..] == p;
    LeadingZerosValue(z, d);
    DecimalRoundTrip(n);
  }

  /** Different counts give different identifiers under the same prefix. */
  lemma SequenceIdInjective(prefix: string, n: nat, m: nat)
    requires n != m
    ensures SequenceId(prefix, n) != SequenceId(prefix, m)
  {
    SequenceIdRoundTrip(prefix, n);
    SequenceIdRoundTrip(prefix, m);
  }
}
