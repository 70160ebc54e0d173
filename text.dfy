/** String helpers with the semantics of the Python standard library calls the
    source relies on: `str.lower` (ASCII part), `str(n)` and `f"{n:04d}"` for
    natural numbers, `os.path.join` and `os.path.splitext` (POSIX flavour),
    substring tests and the first run of digits matched by the regex `\d+`. */
module Text {

  // ---------------------------------------------------------------- characters

  predicate IsDigit(c: char) { '0' <= c <= '9' }

  predicate AllDigits(s: string) { forall i | 0 <= i < |s| :: IsDigit(s[i]) }

  predicate NoDigits(s: string) { forall i | 0 <= i < |s| :: !IsDigit(s[i]) }

  function LowerChar(c: char): char {
    if 'A' <= c <= 'Z' then (c as int + 32) as char else c
  }

  /** `str.lower` restricted to ASCII letters. */
  function Lower(s: string): (r: string)
    ensures |r| == |s|
    ensures forall i | 0 <= i < |s| :: r[i] == LowerChar(s[i])
    ensures forall i | 0 <= i < |s| :: !('A' <= r[i] <= 'Z')
  {
    seq(|s|, i requires 0 <= i < |s| => LowerChar(s[i]))
  }

  lemma LowerIdempotent(s: string)
    ensures Lower(Lower(s)) == Lower(s)
  {
  }

  // ---------------------------------------------------------------- substrings

  predicate StartsWith(s: string, prefix: string) {
    |prefix| <= |s| && s[..|prefix|] == prefix
  }

  predicate EndsWith(s: string, suffix: string) {
    |suffix| <= |s| && s[|s| - |suffix|..] == suffix
  }

  /** `sub in s` for Python strings. */
  predicate Contains(s: string, sub: string) {
    exists i | 0 <= i <= |s| - |sub| :: OccursAt(s, sub, i)
  }

  predicate OccursAt(s: string, sub: string, i: int) {
    0 <= i <= |s| - |sub| && s[i..i + |sub|] == sub
  }

  lemma ContainsConcat(a: string, sub: string, b: string)
    ensures Contains(a + sub + b, sub)
  {
    var s := a + sub + b;
    assert s[|a|..|a| + |sub|] == sub;
    assert OccursAt(s, sub, |a|);
  }

  // ---------------------------------------------------------------- numbers

  function DigitChar(d: nat): char
    requires d < 10
  {
    ('0' as int + d) as char
  }

  function DigitValue(c: char): int {
    c as int - '0' as int
  }

  /** The value of a string of decimal digits (`int(s)` for such strings). */
  function ParseDecimal(s: string): int {
    if s == [] then 0 else ParseDecimal(s[..|s| - 1]) * 10 + DigitValue(s[|s| - 1])
  }

  /** `str(n)` for a natural number. */
  function DecimalString(n: nat): (r: string)
    ensures |r| >= 1
    decreases n
  {
    if n < 10 then [DigitChar(n)] else DecimalString(n / 10) + [DigitChar(n % 10)]
  }

  /** `str(n)` is made of digits and has no leading zero unless n is 0. */
  lemma {:induction false} DecimalStringDigits(n: nat)
    ensures AllDigits(DecimalString(n))
    ensures (DecimalString(n)[0] == '0') == (n == 0)
    decreases n
  {
    if n >= 10 {
      DecimalStringDigits(n / 10);
      assert DecimalString(n)[0] == DecimalString(n / 10)[0];
    }
  }

  lemma {:induction false} ParseDecimalString(n: nat)
    ensures ParseDecimal(DecimalString(n)) == n
    decreases n
  {
    if n >= 10 {
      var s := DecimalString(n);
      assert s[..|s| - 1] == DecimalString(n / 10);
      ParseDecimalString(n / 10);
    }
  }

  /** Distinct numbers get distinct file names: `str` is injective on naturals. */
  lemma DecimalStringInjective(m: nat, n: nat)
    requires DecimalString(m) == DecimalString(n)
    ensures m == n
  {
    ParseDecimalString(m);
    ParseDecimalString(n);
  }

  function Zeros(k: nat): (r: string)
    ensures |r| == k
  {
    if k == 0 then [] else Zeros(k - 1) + ['0']
  }

  /** `f"{n:04d}"`: the decimal digits of n, left-padded with zeros to width 4. */
  function Pad4(n: nat): string {
    var d := DecimalString(n);
    if |d| < 4 then Zeros(4 - |d|) + d else d
  }

  /** `f"{n:04d}"` is made of digits only. */
  lemma Pad4Digits(n: nat)
    ensures AllDigits(Pad4(n))
  {
    DecimalStringDigits(n);
    ZerosDigits(4);
  }

  lemma {:induction false} ZerosDigits(k: nat)
    ensures forall j | 0 <= j <= k :: AllDigits(Zeros(j))
  {
    if k > 0 {
      ZerosDigits(k - 1);
    }
  }

  lemma {:induction false} ParseDecimalAppend(a: string, b: string)
    ensures ParseDecimal(a + b) == ParseDecimal(a) * Power10(|b|) + ParseDecimal(b)
    decreases |b|
  {
    var ab := a + b;
    if b == [] {
      assert ab == a;
    } else {
      var b' := b[..|b| - 1];
      assert ab[..|ab| - 1] == a + b';
      assert ab[|ab| - 1] == b[|b| - 1];
      ParseDecimalAppend(a, b');
      ShiftStep(ParseDecimal(a), Power10(|b'|), ParseDecimal(b'), DigitValue(b[|b| - 1]));
    }
  }

  lemma ShiftStep(x: int, p: int, y: int, d: int)
    ensures (x * p + y) * 10 + d == x * (10 * p) + (y * 10 + d)
  {
  }

  function Power10(k: nat): nat {
    if k == 0 then 1 else 10 * Power10(k - 1)
  }

  lemma {:induction false} ParseZeros(k: nat)
    ensures ParseDecimal(Zeros(k)) == 0
  {
    if k > 0 {
      assert Zeros(k)[..k - 1] == Zeros(k - 1);
      ParseZeros(k - 1);
    }
  }

  /** The zero-padded name keeps the index: it reads back as the same number. */
  lemma Pad4Value(n: nat)
    ensures ParseDecimal(Pad4(n)) == n
  {
    var d := DecimalString(n);
    ParseDecimalString(n);
    if |d| < 4 {
      var z := Zeros(4 - |d|);
      assert Pad4(n) == z + d;
      ParseDecimalAppend(z, d);
      ParseZeros(4 - |d|);
      var p := Power10(|d|);
      assert ParseDecimal(z + d) == 0 * p + n;
    } else {
      assert Pad4(n) == d;
    }
  }

  /** The zero-padded name is at least four characters long, and exactly four
      for indices below 10000. */
  lemma Pad4Length(n: nat)
    ensures |Pad4(n)| >= 4
    ensures n < 10000 ==> |Pad4(n)| == 4
  {
    DecimalStringLength(n);
  }

  lemma {:induction false} DecimalStringLength(n: nat)
    ensures n < 10000 ==> |DecimalString(n)| <= 4
    ensures n >= 1000 ==> |DecimalString(n)| >= 4
    decreases n
  {
    if n >= 10 {
      DecimalStringLength(n / 10);
      ShortDecimal(n / 10);
    }
  }

  lemma {:induction false} ShortDecimal(n: nat)
    ensures n < 1000 ==> |DecimalString(n)| <= 3
    ensures n >= 100 ==> |DecimalString(n)| >= 3
    decreases n
  {
    if n >= 10 {
      TinyDecimal(n / 10);
    }
  }

  lemma TinyDecimal(n: nat)
    ensures n < 100 ==> |DecimalString(n)| <= 2
    ensures n >= 10 ==> |DecimalString(n)| >= 2
  {
    if n >= 10 {
      assert |DecimalString(n / 10)| >= 1;
    }
  }

  // ---------------------------------------------------------------- digit runs

  /** Index of the first digit of s, or |s| when there is none. */
  function FirstDigitIndex(s: string): (k: nat)
    ensures k <= |s|
    ensures NoDigits(s[..k])
    ensures k < |s| ==> IsDigit(s[k])
  {
    if s == [] then 0
    else if IsDigit(s[0]) then 0
    else
      var k := 1 + FirstDigitIndex(s[1..]);
      assert s[..k] == [s[0]] + s[1..][..k - 1];
      k
  }

  /** Length of the longest prefix of s made of digits. */
  function DigitRunLength(s: string): (k: nat)
    ensures k <= |s|
    ensures AllDigits(s[..k])
    ensures k < |s| ==> !IsDigit(s[k])
  {
    if s == [] || !IsDigit(s[0]) then 0
    else
      var k := 1 + DigitRunLength(s[1..]);
      assert s[..k] == [s[0]] + s[1..][..k - 1];
      k
  }

  /** The first maximal run of digits in s, as `re.search(r'\d+', s)` finds it
      (ASCII digits); empty when s has no digit. */
  function FirstDigitRun(s: string): (r: string)
    ensures AllDigits(r)
    ensures (r == []) == NoDigits(s)
  {
    var start := FirstDigitIndex(s);
    var rest := s[start..];
    var run := rest[..DigitRunLength(rest)];
    assert start < |s| ==> run != [] by {
      if start < |s| { assert IsDigit(rest[0]); }
    }
    assert start == |s| ==> s[..start] == s;
    assert start < |s| ==> IsDigit(s[start]);
    run
  }

  /** A digit-free prefix followed by a number: the first digit run is that number. */
  lemma FirstDigitRunOfNumber(prefix: string, n: nat, suffix: string)
    requires NoDigits(prefix)
    requires suffix == [] || !IsDigit(suffix[0])
    ensures FirstDigitRun(prefix + DecimalString(n) + suffix) == DecimalString(n)
  {
    var d := DecimalString(n);
    DecimalStringDigits(n);
    var s := prefix + d + suffix;
    FirstDigitIndexOf(prefix, d + suffix);
    assert s == prefix + (d + suffix);
    assert s[|prefix|..] == d + suffix;
    DigitRunLengthOf(d, suffix);
    assert (d + suffix)[..|d|] == d;
  }

  lemma {:induction false} FirstDigitIndexOf(prefix: string, rest: string)
    requires NoDigits(prefix)
    requires rest != [] && IsDigit(rest[0])
    ensures FirstDigitIndex(prefix + rest) == |prefix|
    decreases |prefix|
  {
    if prefix != [] {
      assert (prefix + rest)[1..] == prefix[1..] + rest;
      FirstDigitIndexOf(prefix[1..], rest);
    }
  }

  lemma {:induction false} DigitRunLengthOf(d: string, suffix: string)
    requires AllDigits(d)
    requires suffix == [] || !IsDigit(suffix[0])
    ensures DigitRunLength(d + suffix) == |d|
    decreases |d|
  {
    if d != [] {
      assert (d + suffix)[1..] == d[1..] + suffix;
      DigitRunLengthOf(d[1..], suffix);
    } else {
      assert d + suffix == suffix;
    }
  }

  // ---------------------------------------------------------------- order

  /** Python's `<` on strings: code point by code point, a proper prefix first. */
  predicate StrLess(a: string, b: string)
    decreases |a|
  {
    if |a| == 0 then |b| > 0
    else if |b| == 0 then false
    else if a[0] < b[0] then true
    else a[0] == b[0] && StrLess(a[1..], b[1..])
  }

  lemma {:induction false} StrLessIrreflexive(a: string)
    ensures !StrLess(a, a)
    decreases |a|
  {
    if |a| > 0 {
      StrLessIrreflexive(a[1..]);
    }
  }

  lemma {:induction false} StrLessTotal(a: string, b: string)
    requires a != b
    ensures StrLess(a, b) || StrLess(b, a)
    decreases |a|
  {
    if |a| > 0 && |b| > 0 && a[0] == b[0] {
      assert a == [a[0]] + a[1..] && b == [b[0]] + b[1..];
      StrLessTotal(a[1..], b[1..]);
    }
  }

  lemma {:induction false} StrLessTransitive(a: string, b: string, c: string)
    requires StrLess(a, b) && StrLess(b, c)
    ensures StrLess(a, c)
    decreases |a|
  {
    if |a| > 0 && a[0] == b[0] && b[0] == c[0] {
      StrLessTransitive(a[1..], b[1..], c[1..]);
    }
  }

  // ---------------------------------------------------------------- paths

  /** `os.path.join(a, b)` on POSIX: an absolute b replaces a; otherwise b is
      appended after a separator unless a is empty or already ends in one. */
  function JoinPath(a: string, b: string): string {
    if b != [] && b[0] == '/' then b
    else if a == [] || a[|a| - 1] == '/' then a + b
    else a + "/" + b
  }

  lemma JoinPathEnds(a: string, b: string)
    ensures EndsWith(JoinPath(a, b), b)
  {
  }

  /** Index of the last occurrence of c in s, or -1. */
  function LastIndexOf(s: string, c: char): (k: int)
    ensures -1 <= k < |s|
    ensures k >= 0 ==> s[k] == c
    ensures forall i | k < i < |s| :: s[i] != c
  {
    if s == [] then -1
    else if s[|s| - 1] == c then |s| - 1
    else LastIndexOf(s[..|s| - 1], c)
  }

  /** True when s[from..to] holds a character other than '.'. */
  predicate HasNonDot(s: string, from: int, to: int)
    requires 0 <= from && to <= |s|
  {
    exists i | from <= i < to :: s[i] != '.'
  }

  /** `os.path.splitext(p)[1]` on POSIX: the suffix starting at the last '.'
      of the final path component, unless everything before that '.' in the
      component is dots (a leading-dot name such as `.bashrc` has no extension). */
  function SplitExt(p: string): (ext: string)
    ensures ext == [] || ext[0] == '.'
    ensures EndsWith(p, ext)
    ensures forall i | 1 <= i < |ext| :: ext[i] != '.' && ext[i] != '/'
  {
    var sep := LastIndexOf(p, '/');
    var dot := LastIndexOf(p, '.');
    if dot > sep && HasNonDot(p, sep + 1, dot) then p[dot..] else []
  }

  /** `', '.join(parts)` with an arbitrary separator. */
  function JoinWith(parts: seq<string>, sep: string): string {
    if parts == [] then []
    else if |parts| == 1 then parts[0]
    else parts[0] + sep + JoinWith(parts[1..], sep)
  }
}
