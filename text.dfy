/** String helpers with Python's meaning: `str.strip()`, `str.upper()`, `%0Nd`, `%x`. */
module Text {

  /** `str.isspace()` for one character: Python's whitespace set (bidirectional classes
      WS, B and S, and the space separators). */
  predicate IsSpace(c: char)
  {
    c == ' ' || ('\t' <= c <= '\r') || ('\U{1c}' <= c <= '\U{1f}')
    || c == '\U{85}' || c == '\U{a0}' || c == '\U{1680}' || ('\U{2000}' <= c <= '\U{200a}')
    || c == '\U{2028}' || c == '\U{2029}' || c == '\U{202f}' || c == '\U{205f}' || c == '\U{3000}'
  }

  /** `str.lstrip()`: drops the leading whitespace, and only that. */
  function StripLeft(s: string): (r: string)
    ensures |r| <= |s| && r == s[|s| - |r|..]
    ensures r == [] || !IsSpace(r[0])
    ensures forall i :: 0 <= i < |s| - |r| ==> IsSpace(s[i])
  {
    if s != [] && IsSpace(s[0]) then StripLeft(s[1..]) else s
  }

  /** `str.rstrip()`: drops the trailing whitespace, and only that. */
  function StripRight(s: string): (r: string)
    ensures |r| <= |s| && r == s[..|r|]
    ensures r == [] || !IsSpace(r[|r| - 1])
    ensures forall i :: |r| <= i < |s| ==> IsSpace(s[i])
  {
    if s != [] && IsSpace(s[|s| - 1]) then StripRight(s[..|s| - 1]) else s
  }

  /** `str.strip()`. */
  function Strip(s: string): string
  {
    StripRight(StripLeft(s))
  }

  /** What `str.strip()` promises: the result is the slice of `s` left once the whitespace
      at both ends is gone, and it neither starts nor ends with whitespace. */
  lemma StripIsTrimmedSlice(s: string)
    ensures exists i, j :: 0 <= i <= j <= |s| && Strip(s) == s[i..j]
                           && (forall k :: 0 <= k < i ==> IsSpace(s[k]))
                           && (forall k :: j <= k < |s| ==> IsSpace(s[k]))
    ensures Strip(s) == [] || (!IsSpace(Strip(s)[0]) && !IsSpace(Strip(s)[|Strip(s)| - 1]))
  {
    var l := StripLeft(s);
    var i := |s| - |l|;
    var j := i + |StripRight(l)|;
    assert Strip(s) == s[i..j];
    forall k | j <= k < |s| ensures IsSpace(s[k]) {
      assert s[k] == l[k - i];
    }
    if Strip(s) != [] {
      assert Strip(s)[0] == l[0];
    }
  }

  /** Stripping twice is stripping once. */
  lemma StripIdempotent(s: string)
    ensures Strip(Strip(s)) == Strip(s)
  {
    var t := Strip(s);
    if t != [] {
      StripIsTrimmedSlice(s);
      assert StripLeft(t) == t;
      assert StripRight(t) == t;
    }
  }

  /** `str.upper()` on one character; only the ASCII letters are mapped. */
  function UpperChar(c: char): char
  {
    if 'a' <= c <= 'z' then (c as int - 32) as char else c
  }

  /** `str.upper()`, for ASCII case. */
  function Upper(s: string): (r: string)
    ensures |r| == |s|
    ensures forall i :: 0 <= i < |s| ==> !('a' <= r[i] <= 'z')
    ensures forall i :: 0 <= i < |s| && !('a' <= s[i] <= 'z') ==> r[i] == s[i]
    ensures forall i :: 0 <= i < |s| && 'a' <= s[i] <= 'z' ==> r[i] as int == s[i] as int - 32
  {
    seq(|s|, i requires 0 <= i < |s| => UpperChar(s[i]))
  }

  function Pow(base: nat, n: nat): (r: nat)
    ensures base >= 1 ==> r >= 1
  {
    if n == 0 then 1 else base * Pow(base, n - 1)
  }

  /** The digit characters of bases 2 to 16, lower-case as Python's `%x` prints them. */
  function Digit(d: nat): char
    requires d < 16
  {
    "0123456789abcdef"[d]
  }

  /** The value of a digit character, 16 for anything that is not a lower-case hex digit. */
  function DigitValue(c: char): (v: nat)
    ensures v <= 16
    ensures v < 16 ==> Digit(v) == c
  {
    if '0' <= c <= '9' then c as int - '0' as int
    else if 'a' <= c <= 'f' then c as int - 'a' as int + 10
    else 16
  }

  lemma DigitValueOfDigit(d: nat)
    requires d < 16
    ensures DigitValue(Digit(d)) == d
  {
  }

  predicate AllDigits(s: string, base: nat)
  {
    forall i :: 0 <= i < |s| ==> DigitValue(s[i]) < base
  }

  /** `%0<width>d` (base 10) or `%0<width>x` (base 16) of a value that fits in the width:
      the last `width` digits of `n`, most significant first. */
  function Fixed(n: nat, width: nat, base: nat): (r: string)
    requires 2 <= base <= 16
    ensures |r| == width && AllDigits(r, base)
  {
    if width == 0 then "" else Fixed(n / base, width - 1, base) + [Digit(n % base)]
  }

  /** The number a string of digits denotes, most significant first. */
  function ParseFixed(s: string, base: nat): nat
  {
    if s == [] then 0
    else ParseFixed(s[..|s| - 1], base) * base + (if DigitValue(s[|s| - 1]) < base then DigitValue(s[|s| - 1]) else 0)
  }

  /** Reading back a fixed-width decimal numeral gives the number, when it fits in the width. */
  lemma {:induction false} ParseFixedOfFixed(n: nat, width: nat)
    requires n < Pow(10, width)
    ensures ParseFixed(Fixed(n, width, 10), 10) == n
  {
    if width > 0 {
      var s := Fixed(n, width, 10);
      assert s[..|s| - 1] == Fixed(n / 10, width - 1, 10);
      ParseFixedOfFixed(n / 10, width - 1);
      DigitValueOfDigit(n % 10);
    }
  }

  /** The same for a fixed-width hexadecimal numeral. */
  lemma {:induction false} ParseHexOfFixed(n: nat, width: nat)
    requires n < Pow(16, width)
    ensures ParseFixed(Fixed(n, width, 16), 16) == n
  {
    if width > 0 {
      var s := Fixed(n, width, 16);
      assert s[..|s| - 1] == Fixed(n / 16, width - 1, 16);
      ParseHexOfFixed(n / 16, width - 1);
      DigitValueOfDigit(n % 16);
    }
  }

  /** Writing a string of decimal digits back at its own width gives the string. */
  lemma {:induction false} FixedOfParseFixed(s: string)
    requires AllDigits(s, 10)
    ensures Fixed(ParseFixed(s, 10), |s|, 10) == s
  {
    if s != [] {
      var init := s[..|s| - 1];
      var d := DigitValue(s[|s| - 1]);
      var n := ParseFixed(s, 10);
      assert n == ParseFixed(init, 10) * 10 + d;
      assert n / 10 == ParseFixed(init, 10) && n % 10 == d;
      FixedOfParseFixed(init);
      assert s == init + [s[|s| - 1]];
    }
  }

  /** `str(n)` for a natural number, without leading zeros. */
  function Decimal(n: nat): (r: string)
    ensures |r| >= 1 && AllDigits(r, 10)
    ensures |r| > 1 ==> r[0] != '0'
  {
    if n < 10 then [Digit(n)] else Decimal(n / 10) + [Digit(n % 10)]
  }

  /** `Decimal` is the shortest numeral: reading it back gives the number. */
  lemma {:induction false} ParseDecimal(n: nat)
    ensures ParseFixed(Decimal(n), 10) == n
  {
    if n >= 10 {
      var s := Decimal(n);
      assert s[..|s| - 1] == Decimal(n / 10);
      ParseDecimal(n / 10);
      DigitValueOfDigit(n % 10);
    } else {
      DigitValueOfDigit(n);
    }
  }

  /** Strict lexicographic order on strings by code point, the order MongoDB sorts
      strings in. */
  predicate Below(a: string, b: string)
  {
    if a == [] then b != []
    else if b == [] then false
    else if a[0] != b[0] then a[0] < b[0]
    else Below(a[1..], b[1..])
  }

  lemma {:induction false} BelowIrreflexive(a: string)
    ensures !Below(a, a)
  {
    if a != [] {
      BelowIrreflexive(a[1..]);
    }
  }

  lemma {:induction false} BelowTotal(a: string, b: string)
    ensures a == b || Below(a, b) || Below(b, a)
  {
    if a != [] && b != [] && a[0] == b[0] {
      BelowTotal(a[1..], b[1..]);
      if a[1..] == b[1..] {
        assert a == [a[0]] + a[1..] && b == [b[0]] + b[1..];
      }
    }
  }

  lemma {:induction false} BelowTransitive(a: string, b: string, c: string)
    requires Below(a, b) && Below(b, c)
    ensures Below(a, c)
  {
    if a != [] && a[0] == b[0] && b[0] == c[0] {
      BelowTransitive(a[1..], b[1..], c[1..]);
    }
  }

  /** "At most" is transitive too. */
  lemma NotBelowTransitive(a: string, b: string, c: string)
    requires !Below(b, a) && !Below(c, b)
    ensures !Below(c, a)
  {
    if Below(c, a) {
      BelowTotal(a, b);
      if Below(a, b) {
        BelowTransitive(c, a, b);
      }
    }
  }
}
