/** String helpers of the JavaScript runtime that the core relies on: `Number.prototype.toString(radix)`
    on non-negative integers, `padStart`, ASCII `toLowerCase`, and the default string order that
    `Array.prototype.sort()` uses. Characters are compared by code point. */
module Text {

  /** The digit character for d in radix up to 16, lower case as JavaScript prints it. */
  function DigitChar(d: nat): (c: char)
    requires d < 16
    ensures IsLowerHex(c)
  {
    if d < 10 then ('0' as int + d) as char else ('a' as int + d - 10) as char
  }

  predicate IsDigit(c: char) {
    '0' <= c <= '9'
  }

  predicate IsLowerHex(c: char) {
    IsDigit(c) || 'a' <= c <= 'f'
  }

  /** The value of a lower-case hexadecimal digit (decimal digits included). */
  function DigitValue(c: char): (d: nat)
    requires IsLowerHex(c)
    ensures d < 16
    ensures IsDigit(c) <==> d < 10
  {
    if IsDigit(c) then c as int - '0' as int else c as int - 'a' as int + 10
  }

  lemma DigitRoundTrip(d: nat)
    requires d < 16
    ensures DigitValue(DigitChar(d)) == d
  {
  }

  /** Every character is a digit of the given radix. */
  predicate AllDigits(s: string, radix: nat)
    requires 2 <= radix <= 16
  {
    forall i :: 0 <= i < |s| ==> IsLowerHex(s[i]) && DigitValue(s[i]) < radix
  }

  /** `n.toString(radix)` for a non-negative integer n: the digits of n, most significant first,
      without leading zeros. */
  function NatToString(n: nat, radix: nat): (s: string)
    requires 2 <= radix <= 16
    ensures |s| >= 1
    ensures AllDigits(s, radix)
    ensures |s| > 1 ==> s[0] != '0'
    decreases n
  {
    if n < radix then [DigitChar(n)]
    else
      DivMod(n, radix);
      var front := NatToString(n / radix, radix);
      front + [DigitChar(n % radix)]
  }

  /** Euclidean division facts for a radix. */
  lemma DivMod(n: nat, radix: nat)
    requires 2 <= radix
    ensures n % radix < radix
    ensures n == (n / radix) * radix + n % radix
    ensures n >= radix ==> 0 < n / radix < n
  {
    var q, r := n / radix, n % radix;
    assert n == q * radix + r;
    if n >= radix {
      if q == 0 {
        assert false;
      }
      assert q * radix == q * (radix - 2) + 2 * q;
      assert q * (radix - 2) >= 0;
    }
  }

  /** The number denoted by a string of digits in the given radix. */
  function DigitsValue(s: string, radix: nat): nat
    requires 2 <= radix <= 16
    requires AllDigits(s, radix)
  {
    if s == [] then 0 else DigitsValue(s[..|s| - 1], radix) * radix + DigitValue(s[|s| - 1])
  }

  /** Reading back what NatToString printed gives the number: the rendering loses nothing. */
  lemma {:induction false} NatToStringRoundTrip(n: nat, radix: nat)
    requires 2 <= radix <= 16
    ensures DigitsValue(NatToString(n, radix), radix) == n
    decreases n
  {
    var s := NatToString(n, radix);
    if n < radix {
      assert s[..0] == [];
      DigitRoundTrip(n);
    } else {
      DivMod(n, radix);
      NatToStringRoundTrip(n / radix, radix);
      assert s[..|s| - 1] == NatToString(n / radix, radix);
      DigitRoundTrip(n % radix);
    }
  }

  /** A canonical decimal numeral for a natural number: digits only, no leading zero. */
  predicate IsNatNumeral(s: string) {
    |s| >= 1 && AllDigits(s, 10) && (|s| > 1 ==> s[0] != '0')
  }

  /** A canonical decimal numeral for an integer: an optional '-' before a non-zero natural numeral. */
  predicate IsIntNumeral(s: string) {
    IsNatNumeral(s) || (|s| >= 2 && s[0] == '-' && IsNatNumeral(s[1..]) && s[1..] != "0")
  }

  /** The integer a canonical numeral denotes. */
  function NumeralValue(s: string): int
    requires IsIntNumeral(s)
  {
    if s[0] == '-' then -(DigitsValue(s[1..], 10) as int) else DigitsValue(s, 10)
  }

  /** `i.toString()` for an integer i that JavaScript prints without exponent: the plain decimal
      numeral that denotes i. */
  function IntToDecimal(i: int): (s: string)
    ensures IsIntNumeral(s)
    ensures NumeralValue(s) == i
  {
    if i < 0 then
      var digits := NatToString(-i, 10);
      NatToStringRoundTrip(-i, 10);
      assert digits != "0" by {
        assert DigitsValue("0", 10) == 0 by { assert "0"[..0] == ""; }
      }
      assert ("-" + digits)[1..] == digits;
      "-" + digits
    else
      NatToStringRoundTrip(i, 10);
      NatToString(i, 10)
  }

  /** Different integers print differently. */
  lemma IntToDecimalInjective(i: int, j: int)
    requires IntToDecimal(i) == IntToDecimal(j)
    ensures i == j
  {
  }

  /** `s.padStart(len, fill)`. */
  function PadStart(s: string, len: nat, fill: char): (r: string)
    ensures |r| == if |s| >= len then |s| else len
    ensures r[|r| - |s|..] == s
    ensures forall i :: 0 <= i < |r| - |s| ==> r[i] == fill
  {
    if |s| >= len then s else seq(len - |s|, _ => fill) + s
  }

  predicate IsAsciiUpper(c: char) {
    'A' <= c <= 'Z'
  }

  /** `s.toLowerCase()` on the ASCII range; other characters are kept. */
  function ToLowerAscii(s: string): (r: string)
    ensures |r| == |s|
    ensures forall i :: 0 <= i < |r| ==> !IsAsciiUpper(r[i])
    ensures forall i :: 0 <= i < |s| && !IsAsciiUpper(s[i]) ==> r[i] == s[i]
  {
    seq(|s|, i requires 0 <= i < |s| =>
      if IsAsciiUpper(s[i]) then (s[i] as int - 'A' as int + 'a' as int) as char else s[i])
  }

  /** The order in which `Array.prototype.sort()` without a comparator puts strings: character by
      character, a proper prefix first. */
  predicate LexLess(a: string, b: string) {
    if b == [] then false
    else if a == [] then true
    else if a[0] != b[0] then a[0] < b[0]
    else LexLess(a[1..], b[1..])
  }

  lemma {:induction false} LexLessIrreflexive(a: string)
    ensures !LexLess(a, a)
  {
    if a != [] { LexLessIrreflexive(a[1..]); }
  }

  lemma {:induction false} LexLessAsymmetric(a: string, b: string)
    requires LexLess(a, b)
    ensures !LexLess(b, a)
  {
    if a != [] && b != [] && a[0] == b[0] { LexLessAsymmetric(a[1..], b[1..]); }
  }

  lemma {:induction false} LexLessTransitive(a: string, b: string, c: string)
    requires LexLess(a, b) && LexLess(b, c)
    ensures LexLess(a, c)
  {
    if a != [] && a[0] == b[0] && b[0] == c[0] {
      LexLessTransitive(a[1..], b[1..], c[1..]);
    }
  }

  lemma {:induction false} LexLessTotal(a: string, b: string)
    ensures a == b || LexLess(a, b) || LexLess(b, a)
  {
    if a != [] && b != [] && a[0] == b[0] {
      LexLessTotal(a[1..], b[1..]);
      if a[1..] == b[1..] {
        assert a == [a[0]] + a[1..] && b == [b[0]] + b[1..];
      }
    }
  }

  /** In ascending order: no later element sorts before an earlier one. */
  predicate Sorted(s: seq<string>) {
    forall i, j :: 0 <= i < j < |s| ==> !LexLess(s[j], s[i])
  }

  /** Inserts x into a list, before the first element that does not sort before x. */
  function Insert(x: string, s: seq<string>): (r: seq<string>)
    ensures multiset(r) == multiset(s) + multiset{x}
  {
    if s == [] || !LexLess(s[0], x) then [x] + s
    else
      assert s == [s[0]] + s[1..];
      [s[0]] + Insert(x, s[1..])
  }

  lemma {:induction false} InsertSorted(x: string, s: seq<string>)
    requires Sorted(s)
    ensures Sorted(Insert(x, s))
  {
    if s == [] || !LexLess(s[0], x) {
      forall j | 0 <= j < |s| ensures !LexLess(s[j], x) {
        if j > 0 && LexLess(s[j], x) {
          LexLessTotal(s[0], s[j]);
          if LexLess(s[0], s[j]) { LexLessTransitive(s[0], s[j], x); }
        }
      }
    } else {
      var rest := Insert(x, s[1..]);
      InsertSorted(x, s[1..]);
      LexLessAsymmetric(s[0], x);
      forall j | 0 <= j < |rest| ensures !LexLess(rest[j], s[0]) {
        assert rest[j] in multiset(rest);
        assert rest[j] in s[1..] || rest[j] == x;
      }
    }
  }

  /** `keys.sort()`: the same strings in ascending order. */
  function SortStrings(s: seq<string>): (r: seq<string>)
    ensures Sorted(r)
    ensures multiset(r) == multiset(s)
  {
    if s == [] then []
    else
      assert s == [s[0]] + s[1..];
      InsertSorted(s[0], SortStrings(s[1..]));
      Insert(s[0], SortStrings(s[1..]))
  }

  /** Two non-empty sorted lists with the same elements start with the same string. */
  lemma SortedSameHead(a: seq<string>, b: seq<string>)
    requires Sorted(a) && Sorted(b) && a != [] && b != []
    requires multiset(a) == multiset(b)
    ensures a[0] == b[0]
  {
    assert a[0] in multiset(b) && b[0] in multiset(a);
    var i :| 0 <= i < |b| && b[i] == a[0];
    var j :| 0 <= j < |a| && a[j] == b[0];
    assert !LexLess(a[0], b[0]) by { if i > 0 { assert !LexLess(b[i], b[0]); } else { LexLessIrreflexive(a[0]); } }
    assert !LexLess(b[0], a[0]) by { if j > 0 { assert !LexLess(a[j], a[0]); } else { LexLessIrreflexive(b[0]); } }
    LexLessTotal(a[0], b[0]);
  }

  lemma MultisetTail(a: seq<string>)
    requires a != []
    ensures multiset(a[1..]) == multiset(a) - multiset{a[0]}
  {
    assert a == [a[0]] + a[1..];
  }

  /** A list of strings has exactly one ascending arrangement: two sorted lists with the same
      elements are equal. */
  lemma {:induction false} SortedUnique(a: seq<string>, b: seq<string>)
    requires Sorted(a) && Sorted(b)
    requires multiset(a) == multiset(b)
    ensures a == b
  {
    if a != [] {
      assert |b| == |a| by { assert |multiset(a)| == |multiset(b)|; }
      SortedSameHead(a, b);
      MultisetTail(a);
      MultisetTail(b);
      SortedUnique(a[1..], b[1..]);
      assert a == [a[0]] + a[1..] && b == [b[0]] + b[1..];
    }
  }
}
