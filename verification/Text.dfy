/** Texts in code-point order, and decimal numerals. */
module Text {

  /** Text order by code point: the first difference decides, and a prefix comes first. */
  predicate TextLess(a: string, b: string) {
    if b == [] then false
    else if a == [] then true
    else if a[0] != b[0] then a[0] < b[0]
    else TextLess(a[1..], b[1..])
  }

  lemma {:induction false} TextOrderIsTotal(a: string, b: string)
    ensures TextLess(a, b) || a == b || TextLess(b, a)
    ensures !(TextLess(a, b) && TextLess(b, a)) && !TextLess(a, a)
  {
    if a != [] && b != [] && a[0] == b[0] {
      TextOrderIsTotal(a[1..], b[1..]);
      assert a == [a[0]] + a[1..] && b == [b[0]] + b[1..];
    }
    if a != [] {
      TextOrderIsTotal(a[1..], a[1..]);
    }
  }

  lemma {:induction false} TextOrderIsTransitive(a: string, b: string, c: string)
    requires TextLess(a, b) && TextLess(b, c)
    ensures TextLess(a, c)
  {
    if a != [] && a[0] == b[0] == c[0] {
      TextOrderIsTransitive(a[1..], b[1..], c[1..]);
    }
  }

  /** Behind heads of one length the tails decide only when the heads are equal. */
  lemma {:induction false} HeadsDecide(a: string, x: string, b: string, y: string)
    requires |a| == |b|
    ensures TextLess(a + x, b + y) <==> TextLess(a, b) || (a == b && TextLess(x, y))
  {
    if a == [] {
      assert a + x == x && b + y == y;
    } else {
      assert (a + x)[1..] == a[1..] + x && (b + y)[1..] == b[1..] + y;
      assert a == [a[0]] + a[1..] && b == [b[0]] + b[1..];
      HeadsDecide(a[1..], x, b[1..], y);
    }
  }

  lemma ThreePartsDecide(a: string, x: string, u: string, b: string, y: string, v: string)
    requires |a| == |b| && |x| == |y| && |u| == |v|
    ensures TextLess(a + x + u, b + y + v)
            <==> TextLess(a, b) || (a == b && (TextLess(x, y) || (x == y && TextLess(u, v))))
    ensures a + x + u == b + y + v <==> a == b && x == y && u == v
  {
    HeadsDecide(a, x, b, y);
    HeadsDecide(a + x, u, b + y, v);
    SplitsAlike(a, x, b, y);
    SplitsAlike(a + x, u, b + y, v);
  }

  lemma SplitsAlike(a: string, x: string, b: string, y: string)
    requires |a| == |b|
    ensures a + x == b + y <==> a == b && x == y
  {
    assert (a + x)[..|a|] == a && (b + y)[..|b|] == b;
    assert (a + x)[|a|..] == x && (b + y)[|b|..] == y;
  }

  lemma EqualTails(a: string, b: string, x: string)
    requires |a| == |b|
    ensures TextLess(a + x, b + x) <==> TextLess(a, b)
  {
    HeadsDecide(a, x, b, x);
    TextOrderIsTotal(x, x);
  }

  lemma EqualHeads(a: string, x: string, y: string)
    ensures TextLess(a + x, a + y) <==> TextLess(x, y)
  {
    HeadsDecide(a, x, a, y);
    TextOrderIsTotal(a, a);
  }

  // ---------------------------------------------------------------------------
  // Numerals
  // ---------------------------------------------------------------------------

  function Digit(n: nat): (ch: char)
    requires n < 10
    ensures '0' <= ch <= '9'
  {
    '0' + n as char
  }

  predicate AllDigits(text: string) { forall i :: 0 <= i < |text| ==> '0' <= text[i] <= '9' }

  function DecimalValue(text: string): nat
    requires AllDigits(text)
  {
    if text == [] then 0
    else DecimalValue(text[..|text| - 1]) * 10 + (text[|text| - 1] - '0') as nat
  }

  function Pow10(n: nat): nat { if n == 0 then 1 else 10 * Pow10(n - 1) }

  /** A numeral of a fixed number of digits, zero padded. */
  function Padded(n: nat, width: nat): (text: string)
    ensures |text| == width && AllDigits(text)
  {
    if width == 0 then "" else Padded(n / 10, width - 1) + [Digit(n % 10)]
  }

  lemma {:induction false} PaddedRoundTrip(n: nat, width: nat)
    requires n < Pow10(width)
    ensures DecimalValue(Padded(n, width)) == n
  {
    if width > 0 {
      PaddedRoundTrip(n / 10, width - 1);
      assert Padded(n, width)[..width - 1] == Padded(n / 10, width - 1);
    }
  }

  /** Padded numerals sort as the numbers they state. */
  lemma {:induction false} PaddedOrder(n: nat, m: nat, width: nat)
    requires n < Pow10(width) && m < Pow10(width)
    ensures TextLess(Padded(n, width), Padded(m, width)) <==> n < m
  {
    if width > 0 {
      PaddedOrder(n / 10, m / 10, width - 1);
      PaddedIsInjective(n / 10, m / 10, width - 1);
      LastDigits(Padded(n / 10, width - 1), n % 10, Padded(m / 10, width - 1), m % 10);
    }
  }

  lemma PaddedIsInjective(n: nat, m: nat, width: nat)
    requires n < Pow10(width) && m < Pow10(width)
    ensures Padded(n, width) == Padded(m, width) <==> n == m
  {
    PaddedRoundTrip(n, width);
    PaddedRoundTrip(m, width);
  }

  lemma LastDigits(a: string, i: nat, b: string, j: nat)
    requires |a| == |b| && i < 10 && j < 10
    ensures TextLess(a + [Digit(i)], b + [Digit(j)]) <==> TextLess(a, b) || (a == b && i < j)
  {
    HeadsDecide(a, [Digit(i)], b, [Digit(j)]);
    assert [Digit(i)][1..] == [] && [Digit(j)][1..] == [];
  }
}
