// The few pieces of Python's text handling the library relies on: `str()` of an
// integer, `str.lower()` and `str.strip()`.
module Text {

  predicate IsDigit(c: char)
  {
    '0' <= c <= '9'
  }

  /** `n` is one of the ten code points of a script's digits starting at `zero`. */
  predicate InDigitBlock(n: int, zero: int)
  {
    zero <= n < zero + 10
  }

  /**
   * Whether `c` matches `\d` in a `str` pattern of Python's `re`: a decimal
   * digit of any script, that is, a character of Unicode general category Nd
   * (Unicode 15.0, the database of Python 3.12). Besides the ASCII digits these
   * are 62 further runs of ten digits and the 50 mathematical digits.
   */
  predicate IsDecimalDigit(c: char)
  {
    var n := c as int;
    || IsDigit(c)
    || InDigitBlock(n, 0x660) || InDigitBlock(n, 0x6F0) || InDigitBlock(n, 0x7C0) || InDigitBlock(n, 0x966) || InDigitBlock(n, 0x9E6)
    || InDigitBlock(n, 0xA66) || InDigitBlock(n, 0xAE6) || InDigitBlock(n, 0xB66) || InDigitBlock(n, 0xBE6) || InDigitBlock(n, 0xC66)
    || InDigitBlock(n, 0xCE6) || InDigitBlock(n, 0xD66) || InDigitBlock(n, 0xDE6) || InDigitBlock(n, 0xE50) || InDigitBlock(n, 0xED0)
    || InDigitBlock(n, 0xF20)
    || InDigitBlock(n, 0x1040) || InDigitBlock(n, 0x1090) || InDigitBlock(n, 0x17E0) || InDigitBlock(n, 0x1810) || InDigitBlock(n, 0x1946)
    || InDigitBlock(n, 0x19D0) || InDigitBlock(n, 0x1A80) || InDigitBlock(n, 0x1A90) || InDigitBlock(n, 0x1B50) || InDigitBlock(n, 0x1BB0)
    || InDigitBlock(n, 0x1C40) || InDigitBlock(n, 0x1C50)
    || InDigitBlock(n, 0xA620) || InDigitBlock(n, 0xA8D0) || InDigitBlock(n, 0xA900) || InDigitBlock(n, 0xA9D0) || InDigitBlock(n, 0xA9F0)
    || InDigitBlock(n, 0xAA50) || InDigitBlock(n, 0xABF0) || InDigitBlock(n, 0xFF10)
    || InDigitBlock(n, 0x104A0) || InDigitBlock(n, 0x10D30) || InDigitBlock(n, 0x11066) || InDigitBlock(n, 0x110F0) || InDigitBlock(n, 0x11136)
    || InDigitBlock(n, 0x111D0) || InDigitBlock(n, 0x112F0) || InDigitBlock(n, 0x11450) || InDigitBlock(n, 0x114D0) || InDigitBlock(n, 0x11650)
    || InDigitBlock(n, 0x116C0) || InDigitBlock(n, 0x11730) || InDigitBlock(n, 0x118E0) || InDigitBlock(n, 0x11950) || InDigitBlock(n, 0x11C50)
    || InDigitBlock(n, 0x11D50) || InDigitBlock(n, 0x11DA0) || InDigitBlock(n, 0x11F50)
    || InDigitBlock(n, 0x16A60) || InDigitBlock(n, 0x16AC0) || InDigitBlock(n, 0x16B50)
    || (0x1D7CE <= n <= 0x1D7FF)
    || InDigitBlock(n, 0x1E140) || InDigitBlock(n, 0x1E2F0) || InDigitBlock(n, 0x1E4F0) || InDigitBlock(n, 0x1E950) || InDigitBlock(n, 0x1FBF0)
  }

  function DigitChar(d: nat): char
    requires d <= 9
  {
    (48 + d) as char
  }

  function DigitValue(c: char): nat
    requires IsDigit(c)
  {
    c as int - 48
  }

  function Pow10(k: nat): (p: nat)
    ensures p >= 1
  {
    if k == 0 then 1 else 10 * Pow10(k - 1)
  }

  /** Number of decimal digits of `n` (zero has one). */
  function NumDigits(n: nat): nat
  {
    if n < 10 then 1 else 1 + NumDigits(n / 10)
  }

  /** Most significant decimal digit of `n`. */
  function LeadingDigit(n: nat): (d: nat)
    ensures d <= 9
    ensures n >= 10 ==> d >= 1
  {
    if n < 10 then n else LeadingDigit(n / 10)
  }

  /** The decimal digits of `n`, most significant first, without leading zeros. */
  function Digits(n: nat): (s: string)
    ensures |s| == NumDigits(n)
    ensures forall k :: 0 <= k < |s| ==> IsDigit(s[k])
    ensures s[0] == DigitChar(LeadingDigit(n))
  {
    if n < 10 then [DigitChar(n)] else Digits(n / 10) + [DigitChar(n % 10)]
  }

  /** Python's `str(n)` for an integer `n`. */
  function DecimalString(n: int): string
  {
    if n < 0 then "-" + Digits(-n) else Digits(n)
  }

  /** The number a string of decimal digits denotes. */
  function ParseDigits(s: string): nat
    requires forall k :: 0 <= k < |s| ==> IsDigit(s[k])
  {
    if s == [] then 0 else 10 * ParseDigits(s[..|s| - 1]) + DigitValue(s[|s| - 1])
  }

  /** Python's `int(s)` for the strings `DecimalString` produces. */
  function ParseDecimal(s: string): int
    requires s != [] && (s[0] == '-' || IsDigit(s[0]))
    requires forall k :: 1 <= k < |s| ==> IsDigit(s[k])
  {
    if s[0] == '-' then -(ParseDigits(s[1..]) as int) else ParseDigits(s)
  }

  lemma {:induction false} ParseDigitsOfDigits(n: nat)
    ensures ParseDigits(Digits(n)) == n
    decreases n
  {
    if n >= 10 {
      var s := Digits(n);
      assert s[..|s| - 1] == Digits(n / 10);
      ParseDigitsOfDigits(n / 10);
    }
  }

  /** `str` and `int` are inverse on integers. */
  lemma DecimalRoundTrip(n: int)
    ensures DecimalString(n) != []
    ensures ParseDecimal(DecimalString(n)) == n
  {
    if n < 0 {
      assert DecimalString(n)[1..] == Digits(-n);
      ParseDigitsOfDigits(-n);
    } else {
      ParseDigitsOfDigits(n);
    }
  }

  /** `n` has more than `k` digits exactly when it is at least 10^k. */
  lemma {:induction false} MoreDigitsThan(n: nat, k: nat)
    requires k >= 1
    ensures NumDigits(n) > k <==> n >= Pow10(k)
    decreases n
  {
    PowAtLeastTen(k);
    if k > 1 && n >= 10 {
      MoreDigitsThan(n / 10, k - 1);
    }
  }

  lemma {:induction false} PowAtLeastTen(k: nat)
    requires k > 0
    ensures Pow10(k) >= 10
  {
    if k > 1 {
      PowAtLeastTen(k - 1);
    }
  }

  /** Dividing by 10 and then by 10^j is dividing by 10^(j+1). */
  lemma DivideTwice(n: nat, j: nat)
    ensures n / 10 / Pow10(j) == n / Pow10(j + 1)
  {
    var p := Pow10(j);
    var q := n / 10;
    var a := q / p;
    var b := q % p;
    assert q == p * a + b;
    assert n == 10 * q + n % 10;
    assert n == (10 * p) * a + (10 * b + n % 10);
    assert 0 <= 10 * b + n % 10 < 10 * p;
    DivisionUnique(n, 10 * p, a, 10 * b + n % 10);
  }

  lemma DivisionUnique(n: int, d: int, a: int, s: int)
    requires d > 0 && n == d * a + s && 0 <= s < d
    ensures n / d == a
  {
    var q := n / d;
    var r := n % d;
    assert n == d * q + r && 0 <= r < d;
    if q > a {
      assert d * q >= d * (a + 1) by { MultiplyMonotone(d, a + 1, q); }
    } else if q < a {
      assert d * a >= d * (q + 1) by { MultiplyMonotone(d, q + 1, a); }
    }
  }

  lemma MultiplyMonotone(d: int, x: int, y: int)
    requires d > 0 && x <= y
    ensures d * x <= d * y
  {
  }

  /** `n` with its last `j` decimal digits dropped. */
  function DropDigits(n: nat, j: nat): nat
  {
    if j == 0 then n else DropDigits(n / 10, j - 1)
  }

  /** Dropping `j` digits is integer division by 10^j. */
  lemma {:induction false} DropIsDivision(n: nat, j: nat)
    ensures DropDigits(n, j) == n / Pow10(j)
  {
    if j > 0 {
      DropIsDivision(n / 10, j - 1);
      DivideTwice(n, j - 1);
    }
  }

  /** The first `k` digits of `n` are the digits of `n` with its last digits dropped. */
  lemma {:induction false} DigitsPrefix(n: nat, k: nat)
    requires 1 <= k <= NumDigits(n)
    ensures Digits(n)[..k] == Digits(DropDigits(n, NumDigits(n) - k))
    decreases n
  {
    if k < NumDigits(n) {
      var m := n / 10;
      assert NumDigits(n) == 1 + NumDigits(m);
      assert NumDigits(n) - k == NumDigits(m) - k + 1;
      var d := Digits(n);
      assert d == Digits(m) + [DigitChar(n % 10)];
      assert d[..k] == Digits(m)[..k];
      DigitsPrefix(m, k);
    }
  }

  /**
   * Python's `str.lower()` on one character, for the characters whose lower
   * case is ASCII: the letters A-Z and the Kelvin sign. Every other character
   * is left as it is; Python lowers many of them, but always to text that is
   * not ASCII.
   */
  function Lower(c: char): char
  {
    if 'A' <= c <= 'Z' then (c as int + 32) as char
    else if c == '\U{212A}' then 'k'
    else c
  }

  function LowerString(s: string): string
  {
    seq(|s|, i requires 0 <= i < |s| => Lower(s[i]))
  }

  /** Python's `str.isspace()` on one character. */
  predicate IsSpace(c: char)
  {
    var n := c as int;
    (9 <= n <= 13) || (28 <= n <= 32) || n == 0x85 || n == 0xA0 || n == 0x1680 ||
    (0x2000 <= n <= 0x200A) || n == 0x2028 || n == 0x2029 || n == 0x202F ||
    n == 0x205F || n == 0x3000
  }

  /** `s` without its leading whitespace. */
  function StripLeft(s: string): (r: string)
    ensures |r| <= |s| && r == s[|s| - |r|..]
    ensures forall k :: 0 <= k < |s| - |r| ==> IsSpace(s[k])
    ensures r != [] ==> !IsSpace(r[0])
  {
    if s != [] && IsSpace(s[0]) then StripLeft(s[1..]) else s
  }

  /** `s` without its trailing whitespace. */
  function StripRight(s: string): (r: string)
    ensures |r| <= |s| && r == s[..|r|]
    ensures forall k :: |r| <= k < |s| ==> IsSpace(s[k])
    ensures r != [] ==> !IsSpace(r[|r| - 1])
  {
    if s != [] && IsSpace(s[|s| - 1]) then StripRight(s[..|s| - 1]) else s
  }

  /** Python's `str.strip()` with no argument. */
  function Strip(s: string): string
  {
    StripRight(StripLeft(s))
  }

  /** `s.lower().strip()`, the normal form the vessel code lookups compare. */
  function Fold(s: string): string
  {
    Strip(LowerString(s))
  }

  lemma StripIdempotent(s: string)
    ensures Strip(Strip(s)) == Strip(s)
  {
    var t := Strip(s);
    if t != [] {
      assert t[0] == StripLeft(s)[0];
      assert StripLeft(t) == t;
    }
  }

  /** Every character of `s` is its own lower case. */
  predicate IsLowered(s: string)
  {
    forall k :: 0 <= k < |s| ==> Lower(s[k]) == s[k]
  }

  /** Lowering a string that is already lower case changes nothing. */
  lemma LowerOfLowered(s: string)
    requires IsLowered(s)
    ensures LowerString(s) == s
  {
  }

  lemma LoweredSlice(s: string, i: nat, j: nat)
    requires IsLowered(s) && i <= j <= |s|
    ensures IsLowered(s[i..j])
  {
    forall k | 0 <= k < j - i
      ensures Lower(s[i..j][k]) == s[i..j][k]
    {
      assert s[i..j][k] == s[i + k];
    }
  }

  lemma LowerStringLowered(s: string)
    ensures IsLowered(LowerString(s))
  {
    var l := LowerString(s);
    forall k | 0 <= k < |l|
      ensures Lower(l[k]) == l[k]
    {
      LowerIdempotent(s[k]);
    }
  }

  lemma LowerIdempotent(c: char)
    ensures Lower(Lower(c)) == Lower(c)
  {
  }

  lemma StripKeepsLowered(l: string)
    requires IsLowered(l)
    ensures IsLowered(Strip(l))
  {
    var a := StripLeft(l);
    LoweredSlice(l, |l| - |a|, |l|);
    LoweredSlice(a, 0, |StripRight(a)|);
  }

  /** Folding a folded string changes nothing. */
  lemma FoldIdempotent(s: string)
    ensures Fold(Fold(s)) == Fold(s)
  {
    var l := LowerString(s);
    LowerStringLowered(s);
    StripKeepsLowered(l);
    LowerOfLowered(Strip(l));
    StripIdempotent(l);
  }

  /** Lowering a character never turns it into whitespace or out of it. */
  lemma LowerKeepsSpace(c: char)
    ensures IsSpace(Lower(c)) == IsSpace(c)
  {
  }

  /** A string with no whitespace at either end folds to its lower case. */
  lemma FoldUnpadded(s: string)
    requires s != [] && !IsSpace(s[0]) && !IsSpace(s[|s| - 1])
    ensures Fold(s) == LowerString(s)
  {
    var l := LowerString(s);
    assert !IsSpace(l[0]) && !IsSpace(l[|l| - 1]);
    assert StripLeft(l) == l;
  }

  /** A string that does not start with whitespace folds to a string starting with its first letter lowered. */
  lemma FoldHead(s: string)
    requires s != [] && !IsSpace(s[0])
    ensures Fold(s) != [] && Fold(s)[0] == Lower(s[0])
  {
    var l := LowerString(s);
    assert !IsSpace(l[0]);
    assert StripLeft(l) == l;
  }

  lemma {:induction false} StripLeftPadding(w: string, s: string)
    requires forall k :: 0 <= k < |w| ==> IsSpace(w[k])
    ensures StripLeft(w + s) == StripLeft(s)
    decreases |w|
  {
    if w == [] {
      assert w + s == s;
    } else {
      assert (w + s)[0] == w[0];
      assert (w + s)[1..] == w[1..] + s;
      StripLeftPadding(w[1..], s);
    }
  }

  lemma {:induction false} StripRightPadding(s: string, w: string)
    requires forall k :: 0 <= k < |w| ==> IsSpace(w[k])
    ensures StripRight(s + w) == StripRight(s)
    decreases |w|
  {
    if w == [] {
      assert s + w == s;
    } else {
      assert (s + w)[|s + w| - 1] == w[|w| - 1];
      assert (s + w)[..|s + w| - 1] == s + w[..|w| - 1];
      StripRightPadding(s, w[..|w| - 1]);
    }
  }

  lemma {:induction false} StripLeftAppend(x: string, y: string)
    requires StripLeft(x) != []
    ensures StripLeft(x + y) == StripLeft(x) + y
    decreases |x|
  {
    if IsSpace(x[0]) {
      StripLeftSpace(x, y);
      StripLeftAppend(x[1..], y);
    } else {
      StripLeftPlain(x, y);
    }
  }

  lemma StripLeftSpace(x: string, y: string)
    requires x != [] && IsSpace(x[0])
    ensures StripLeft(x) == StripLeft(x[1..])
    ensures StripLeft(x + y) == StripLeft(x[1..] + y)
  {
    assert (x + y)[0] == x[0];
    assert (x + y)[1..] == x[1..] + y;
  }

  lemma StripLeftPlain(x: string, y: string)
    requires x != [] && !IsSpace(x[0])
    ensures StripLeft(x) == x
    ensures StripLeft(x + y) == x + y
  {
    assert (x + y)[0] == x[0];
  }

  /** Whitespace around a string does not change its folded form. */
  lemma FoldIgnoresPadding(w1: string, s: string, w2: string)
    requires forall k :: 0 <= k < |w1| ==> IsSpace(w1[k])
    requires forall k :: 0 <= k < |w2| ==> IsSpace(w2[k])
    ensures Fold(w1 + s + w2) == Fold(s)
  {
    var l := LowerString(s);
    assert LowerString(w1 + s + w2) == w1 + (l + w2);
    StripLeftPadding(w1, l + w2);
    if StripLeft(l) == [] {
      StripLeftPadding(l, w2);
      StripLeftPadding(w2, []);
      assert w2 + [] == w2;
    } else {
      StripLeftAppend(l, w2);
      StripRightPadding(StripLeft(l), w2);
    }
  }
}
