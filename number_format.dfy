/**
 * PHP `number_format($x, 0, ',', '.')` on an amount held in integer cents: round to whole
 * units half away from zero, then write the decimal numeral with a '.' between groups
 * of three digits and no decimal part.
 */
module NumberFormat {

  predicate IsDigit(c: char) {
    '0' <= c <= '9'
  }

  predicate AllDigits(s: string) {
    forall i :: 0 <= i < |s| ==> IsDigit(s[i])
  }

  function DigitChar(d: int): (c: char)
    requires 0 <= d < 10
    ensures IsDigit(c)
  {
    "0123456789"[d]
  }

  /** The decimal numeral of `n`, without leading zeros. */
  function Numeral(n: nat): (s: string)
    ensures 1 <= |s|
    ensures AllDigits(s)
    ensures s[0] == '0' <==> n == 0
  {
    if n < 10 then [DigitChar(n)] else Numeral(n / 10) + [DigitChar(n % 10)]
  }

  /** The value a string of decimal digits denotes. */
  function NumeralValue(s: string): nat
    requires AllDigits(s)
  {
    if |s| == 0 then 0
    else NumeralValue(s[..|s| - 1]) * 10 + (s[|s| - 1] as int - '0' as int)
  }

  /** Reading back the numeral gives the number. */
  lemma {:induction false} NumeralRoundTrip(n: nat)
    ensures NumeralValue(Numeral(n)) == n
  {
    var s := Numeral(n);
    if n < 10 {
      assert s[..0] == [];
      assert "0123456789"[n] as int - '0' as int == n;
    } else {
      NumeralRoundTrip(n / 10);
      assert s[..|s| - 1] == Numeral(n / 10);
      var d := n % 10;
      assert "0123456789"[d] as int - '0' as int == d;
    }
  }

  lemma DivMod10(a: nat, r: nat)
    requires r < 10
    ensures (a * 10 + r) / 10 == a && (a * 10 + r) % 10 == r
  {
  }

  /** Three digits of `b`, padded with leading zeros. */
  function Group3(b: nat): (s: string)
    requires b < 1000
    ensures |s| == 3 && AllDigits(s)
  {
    [DigitChar(b / 10 / 10), DigitChar(b / 10 % 10), DigitChar(b % 10)]
  }

  /** Appending a digit to a non-zero number appends its character to the numeral. */
  lemma NumeralStep(a: nat, r: nat)
    requires 1 <= a && r < 10
    ensures Numeral(a * 10 + r) == Numeral(a) + [DigitChar(r)]
  {
    DivMod10(a, r);
  }

  /** The numeral of `q * 1000 + b` is that of `q` followed by the three digits of `b`. */
  lemma NumeralSplit(q: nat, b: nat)
    requires 1 <= q && b < 1000
    ensures Numeral(q * 1000 + b) == Numeral(q) + Group3(b)
  {
    var t := b / 10;
    var b2, b1, b0 := t / 10, t % 10, b % 10;
    assert t == b2 * 10 + b1;
    assert b == t * 10 + b0;
    assert b2 < 10;
    var n2 := q * 10 + b2;
    var n1 := n2 * 10 + b1;
    assert q * 1000 + b == n1 * 10 + b0;
    NumeralStep(q, b2);
    NumeralStep(n2, b1);
    NumeralStep(n1, b0);
    assert Numeral(q) + [DigitChar(b2)] + [DigitChar(b1)] + [DigitChar(b0)] == Numeral(q) + Group3(b);
  }

  /** `n` with a '.' between groups of three digits, counted from the right. */
  function GroupThousands(n: nat): string {
    if n < 1000 then Numeral(n) else GroupThousands(n / 1000) + "." + Group3(n % 1000)
  }

  /** A leading group of one to three digits, then groups of a '.' and three digits. */
  predicate Grouped(s: string)
    decreases |s|
  {
    if |s| <= 3 then 1 <= |s| && AllDigits(s)
    else |s| >= 5 && s[|s| - 4] == '.' && AllDigits(s[|s| - 3..]) && Grouped(s[..|s| - 4])
  }

  /** `s` with every '.' deleted. */
  function WithoutDots(s: string): string {
    if |s| == 0 then []
    else WithoutDots(s[..|s| - 1]) + (if s[|s| - 1] == '.' then [] else [s[|s| - 1]])
  }

  lemma {:induction false} WithoutDotsAppend(a: string, b: string)
    ensures WithoutDots(a + b) == WithoutDots(a) + WithoutDots(b)
  {
    if |b| == 0 {
      assert a + b == a;
    } else {
      assert (a + b)[..|a + b| - 1] == a + b[..|b| - 1];
      WithoutDotsAppend(a, b[..|b| - 1]);
    }
  }

  lemma {:induction false} WithoutDotsOfDigits(s: string)
    requires AllDigits(s)
    ensures WithoutDots(s) == s
  {
    if |s| > 0 {
      WithoutDotsOfDigits(s[..|s| - 1]);
      assert s == s[..|s| - 1] + [s[|s| - 1]];
    }
  }

  lemma SmallNumeral(n: nat)
    requires n < 1000
    ensures |Numeral(n)| <= 3
  {
    if n >= 10 {
      assert Numeral(n) == Numeral(n / 10) + [DigitChar(n % 10)];
      if n / 10 >= 10 {
        assert Numeral(n / 10) == Numeral(n / 10 / 10) + [DigitChar(n / 10 % 10)];
      }
    }
  }

  /** One more group of three digits keeps the shape. */
  lemma GroupedJoin(head: string, g: string)
    requires Grouped(head) && |g| == 3 && AllDigits(g)
    ensures Grouped(head + "." + g)
  {
    var s := head + "." + g;
    assert s[..|s| - 4] == head;
    assert s[|s| - 3..] == g;
  }

  /** Deleting the separators of `head + "." + g` leaves `g` after the digits of `head`. */
  lemma WithoutDotsJoin(head: string, g: string)
    requires AllDigits(g)
    ensures WithoutDots(head + "." + g) == WithoutDots(head) + g
  {
    var dotted := head + ".";
    WithoutDotsAppend(dotted, g);
    WithoutDotsAppend(head, ".");
    assert WithoutDots(".") == [] by {
      assert "."[..0] == [];
    }
    assert WithoutDots(dotted) == WithoutDots(head);
    WithoutDotsOfDigits(g);
  }

  /** The grouped form is well formed, and deleting its separators gives the plain numeral. */
  lemma {:induction false} GroupThousandsShape(n: nat)
    ensures Grouped(GroupThousands(n))
    ensures WithoutDots(GroupThousands(n)) == Numeral(n)
  {
    if n < 1000 {
      SmallNumeral(n);
      WithoutDotsOfDigits(Numeral(n));
    } else {
      var q, b := n / 1000, n % 1000;
      assert n == q * 1000 + b;
      GroupThousandsShape(q);
      GroupedJoin(GroupThousands(q), Group3(b));
      WithoutDotsJoin(GroupThousands(q), Group3(b));
      NumeralSplit(q, b);
    }
  }

  /** Cents rounded to whole units, halves away from zero (PHP's rounding). */
  function RoundToUnits(cents: int): (u: int)
    ensures cents >= 0 ==> u >= 0 && u * 100 - 50 <= cents < u * 100 + 50
    ensures cents < 0 ==> u <= 0 && u * 100 - 50 < cents <= u * 100 + 50
  {
    if cents >= 0 then (cents + 50) / 100 else -((-cents + 50) / 100)
  }

  /** `number_format` with no decimals, ',' as decimal point and '.' as thousands separator. */
  function FormatUnits(cents: int): (s: string)
    ensures RoundToUnits(cents) < 0 ==> 2 <= |s| && s[0] == '-' && Grouped(s[1..])
    ensures RoundToUnits(cents) >= 0 ==> Grouped(s)
    ensures RoundToUnits(cents) >= 0 ==> WithoutDots(s) == Numeral(RoundToUnits(cents))
    ensures RoundToUnits(cents) < 0 ==> WithoutDots(s[1..]) == Numeral(-RoundToUnits(cents))
  {
    var u := RoundToUnits(cents);
    var magnitude := if u < 0 then -u else u;
    GroupThousandsShape(magnitude);
    var body := GroupThousands(magnitude);
    if u < 0 then
      assert ("-" + body)[1..] == body;
      "-" + body
    else body
  }
}
