// Decimal printing with zero padding (fmt.Sprintf "%0*d") and strconv.ParseUint:
// the source revision of an entitlement and the object key of an evidence event.
module Decimal {
  import opened Foundations

  function Pow10(n: nat): (p: nat)
    ensures p > 0
  {
    if n == 0 then 1 else 10 * Pow10(n - 1)
  }

  predicate IsDigit(c: char) { '0' <= c <= '9' }

  predicate AllDigits(s: string) { forall i :: 0 <= i < |s| ==> IsDigit(s[i]) }

  function DigitOf(d: nat): (c: char)
    requires d < 10
    ensures IsDigit(c) && DigitValue(c) == d
  {
    ('0' as int + d) as char
  }

  function DigitValue(c: char): nat
    requires IsDigit(c)
  {
    c as int - '0' as int
  }

  // The decimal spelling of n without padding.
  function Plain(n: nat): (s: string)
    ensures s != [] && AllDigits(s)
  {
    if n < 10 then [DigitOf(n)] else Plain(n / 10) + [DigitOf(n % 10)]
  }

  function Zeros(n: nat): (s: string)
    ensures |s| == n
  {
    if n == 0 then [] else Zeros(n - 1) + ['0']
  }

  // fmt.Sprintf("%0*d", width, n)
  function PrintPadded(n: nat, width: nat): string {
    var digits := Plain(n);
    if |digits| < width then Zeros(width - |digits|) + digits else digits
  }

  // The number spelled by a digit string.
  function Value(s: string): nat
    requires AllDigits(s)
  {
    if s == [] then 0 else Value(s[..|s| - 1]) * 10 + DigitValue(s[|s| - 1])
  }

  // strconv.ParseUint(s, 10, 64)
  function ParseUint(s: string): Option<nat> {
    if s == [] || !AllDigits(s) || Value(s) >= UINT64_MOD then None else Some(Value(s))
  }

  lemma {:induction false} PlainWidth(n: nat, width: nat)
    requires 0 < width && n < Pow10(width)
    ensures |Plain(n)| <= width
  {
    if n >= 10 {
      PlainWidth(n / 10, width - 1);
    }
  }

  lemma {:induction false} PlainValue(n: nat)
    ensures Value(Plain(n)) == n
  {
    if n >= 10 {
      PlainValue(n / 10);
      var s := Plain(n);
      assert s[..|s| - 1] == Plain(n / 10);
    }
  }

  lemma {:induction false} PadValue(k: nat, s: string)
    requires AllDigits(s)
    ensures AllDigits(Zeros(k) + s) && Value(Zeros(k) + s) == Value(s)
  {
    var t := Zeros(k) + s;
    if s != [] {
      assert t[..|t| - 1] == Zeros(k) + s[..|s| - 1];
      PadValue(k, s[..|s| - 1]);
    } else if k > 0 {
      assert t == Zeros(k) && Zeros(k - 1) + s == Zeros(k - 1);
      assert t[..|t| - 1] == Zeros(k - 1);
      PadValue(k - 1, s);
    } else {
      assert t == [];
    }
  }

  // Same length, same number: same string.
  lemma {:induction false} ValueInjective(a: string, b: string)
    requires AllDigits(a) && AllDigits(b) && |a| == |b| && Value(a) == Value(b)
    ensures a == b
  {
    if a != [] {
      var k := |a| - 1;
      ValueInjective(a[..k], b[..k]);
      assert a == a[..k] + [a[k]] && b == b[..k] + [b[k]];
    }
  }

  lemma {:induction false} LexSnoc(a: string, b: string, x: char, y: char)
    requires |a| == |b|
    ensures LexLess(a + [x], b + [y]) <==> LexLess(a, b) || (a == b && x < y)
  {
    if a == [] {
      assert (a + [x])[1..] == [] && (b + [y])[1..] == [];
    } else {
      assert (a + [x])[1..] == a[1..] + [x] && (b + [y])[1..] == b[1..] + [y];
      LexSnoc(a[1..], b[1..], x, y);
      if a[0] == b[0] && a[1..] == b[1..] {
        assert a == [a[0]] + a[1..] && b == [b[0]] + b[1..];
      }
    }
  }

  // String order and numeric order coincide on digit strings of one width.
  lemma {:induction false} OrderAgrees(a: string, b: string)
    requires AllDigits(a) && AllDigits(b) && |a| == |b|
    ensures LexLess(a, b) <==> Value(a) < Value(b)
  {
    if a != [] {
      var k := |a| - 1;
      assert a == a[..k] + [a[k]] && b == b[..k] + [b[k]];
      LexSnoc(a[..k], b[..k], a[k], b[k]);
      OrderAgrees(a[..k], b[..k]);
      if Value(a[..k]) == Value(b[..k]) {
        ValueInjective(a[..k], b[..k]);
      }
    }
  }

  // A number below 10^width prints as exactly width digits that spell it.
  lemma PrintedPadded(n: nat, width: nat)
    requires 0 < width && n < Pow10(width)
    ensures |PrintPadded(n, width)| == width && AllDigits(PrintPadded(n, width))
    ensures Value(PrintPadded(n, width)) == n
  {
    PlainWidth(n, width);
    PlainValue(n);
    if |Plain(n)| < width {
      PadValue(width - |Plain(n)|, Plain(n));
    }
  }

  // Printing is strictly monotone from numeric order to string order.
  lemma PaddedOrder(m: nat, n: nat, width: nat)
    requires 0 < width && m < Pow10(width) && n < Pow10(width)
    ensures LexLess(PrintPadded(m, width), PrintPadded(n, width)) <==> m < n
    ensures PrintPadded(m, width) == PrintPadded(n, width) <==> m == n
  {
    PrintedPadded(m, width);
    PrintedPadded(n, width);
    OrderAgrees(PrintPadded(m, width), PrintPadded(n, width));
  }
}
