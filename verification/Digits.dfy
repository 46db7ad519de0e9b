/** Decimal numerals and the order of strings. */
module Digits {

  function Digit(n: nat): char
    requires n < 10
  {
    '0' + n as char
  }

  predicate IsDigit(c: char) {
    '0' <= c <= '9'
  }

  /** `n` in at least `width` digits, as the formats `02d` and `04d` print it. */
  function Pad(n: nat, width: nat): (s: string)
    ensures |s| >= 1 && |s| >= width && forall i :: 0 <= i < |s| ==> IsDigit(s[i])
    decreases n + width
  {
    if n < 10 && width <= 1 then [Digit(n)]
    else Pad(n / 10, if width > 1 then width - 1 else 1) + [Digit(n % 10)]
  }

  function Decimal(n: nat): string {
    Pad(n, 1)
  }

  /** The number a string of digits denotes. */
  function Value(s: string): int
    requires forall i :: 0 <= i < |s| ==> IsDigit(s[i])
  {
    if s == [] then 0 else 10 * Value(s[..|s| - 1]) + (s[|s| - 1] as int - '0' as int)
  }

  lemma {:induction false} ValueOfPad(n: nat, width: nat)
    ensures Value(Pad(n, width)) == n
    decreases n + width
  {
    if !(n < 10 && width <= 1) {
      var w := if width > 1 then width - 1 else 1;
      ValueOfPad(n / 10, w);
      assert Pad(n, width)[..|Pad(n, width)| - 1] == Pad(n / 10, w);
    }
  }

  lemma PadIsInjective(n: nat, m: nat, width: nat)
    requires Pad(n, width) == Pad(m, width)
    ensures n == m
  {
    ValueOfPad(n, width);
    ValueOfPad(m, width);
  }

  function Pow10(k: nat): nat {
    if k == 0 then 1 else 10 * Pow10(k - 1)
  }

  lemma {:induction false} PadHasWidth(n: nat, width: nat)
    requires width >= 1 && n < Pow10(width)
    ensures |Pad(n, width)| == width
    decreases width
  {
    if width > 1 { PadHasWidth(n / 10, width - 1); }
  }

  /** Python's order on strings. */
  predicate Less(a: string, b: string) {
    if b == [] then false
    else if a == [] then true
    else if a[0] != b[0] then a[0] < b[0]
    else Less(a[1..], b[1..])
  }

  /** Numerals of one width compare as the numbers do, and what follows them decides
      between equals. */
  lemma {:induction false} PadsCompareAsNumbers(n: nat, m: nat, width: nat, x: string, y: string)
    requires width >= 1 && n < Pow10(width) && m < Pow10(width)
    ensures Less(Pad(n, width) + x, Pad(m, width) + y) <==> n < m || (n == m && Less(x, y))
    decreases width
  {
    var p, q := Digit(n % 10), Digit(m % 10);
    LessCons(p, q, x, y);
    if width > 1 {
      PadsCompareAsNumbers(n / 10, m / 10, width - 1, [p] + x, [q] + y);
      assert Pad(n, width) + x == Pad(n / 10, width - 1) + ([p] + x);
      assert Pad(m, width) + y == Pad(m / 10, width - 1) + ([q] + y);
    }
  }

  lemma LessCons(p: char, q: char, x: string, y: string)
    ensures Less([p] + x, [q] + y) <==> p < q || (p == q && Less(x, y))
  {
    assert ([p] + x)[1..] == x && ([q] + y)[1..] == y;
  }

  lemma FirstAt(c: char, a: string, b: string)
    requires c !in a
    ensures var s := a + [c] + b; s[|a|] == c && forall i :: 0 <= i < |a| ==> s[i] != c
  {
  }

  lemma LastAt(c: char, a: string, b: string)
    requires c !in b
    ensures var s := a + [c] + b; s[|a|] == c && forall i :: |a| < i < |s| ==> s[i] != c
  {
    var s := a + [c] + b;
    forall i | |a| < i < |s| ensures s[i] != c {
      assert s[i] == b[i - |a| - 1];
    }
  }

  /** A string splits in one way at the first occurrence of `c`. */
  lemma FirstSplitIsUnique(c: char, a: string, b: string, a': string, b': string)
    requires c !in a && c !in a' && a + [c] + b == a' + [c] + b'
    ensures a == a' && b == b'
  {
    FirstAt(c, a, b);
    FirstAt(c, a', b');
    SplitsAtOnePlace(c, a, b, a', b');
  }

  /** ... and at the last. */
  lemma LastSplitIsUnique(c: char, a: string, b: string, a': string, b': string)
    requires c !in b && c !in b' && a + [c] + b == a' + [c] + b'
    ensures a == a' && b == b'
  {
    LastAt(c, a, b);
    LastAt(c, a', b');
    SplitsAtOnePlace(c, a, b, a', b');
  }

  lemma SplitsAtOnePlace(c: char, a: string, b: string, a': string, b': string)
    requires a + [c] + b == a' + [c] + b' && |a| == |a'|
    ensures a == a' && b == b'
  {
    var s := a + [c] + b;
    assert a == s[..|a|] && a' == s[..|a'|];
    assert b == s[|a| + 1..] && b' == s[|a'| + 1..];
  }
}
