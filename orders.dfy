/** The order produced at the end of checkout: its number and the snapshot
    of the cart and total it confirms. The clock reading the number is
    derived from is a parameter. */
module Orders {
  import opened Text
  import Cart

  function DigitChar(n: nat): (c: char)
    requires n < 10
    ensures IsDigit(c)
  {
    ('0' as int + n) as char
  }

  function DigitValue(c: char): nat
    requires IsDigit(c)
  {
    c as int - '0' as int
  }

  /** `n.toString()` for a non-negative integer: its decimal digits, with
      no leading zero. */
  function Decimal(n: nat): (s: string)
    ensures |s| >= 1 && AllDigits(s)
    ensures |s| > 1 ==> s[0] != '0'
  {
    if n < 10 then [DigitChar(n)]
    else
      var s := Decimal(n / 10) + [DigitChar(n % 10)];
      assert s[0] == Decimal(n / 10)[0];
      s
  }

  /** The number a string of digits denotes. */
  function DecimalValue(s: string): nat
    requires AllDigits(s)
  {
    if s == [] then 0 else DecimalValue(s[..|s| - 1]) * 10 + DigitValue(s[|s| - 1])
  }

  /** Reading the decimal string back gives the number. */
  lemma {:induction false} DecimalRoundTrip(n: nat)
    ensures DecimalValue(Decimal(n)) == n
  {
    if n >= 10 {
      var s := Decimal(n);
      assert s[..|s| - 1] == Decimal(n / 10);
      DecimalRoundTrip(n / 10);
    }
  }

  /** `str.slice(-8)`: the last eight characters, or all of a shorter string. */
  function LastEight(s: string): (r: string)
    ensures |r| == if |s| < 8 then |s| else 8
    ensures s == s[..|s| - |r|] + r
  {
    if |s| <= 8 then s else s[|s| - 8..]
  }

  /** `generateOrderNumber` with `Date.now()` supplied as `now`. */
  function OrderNumber(now: nat): (r: string)
    ensures 4 <= |r| <= 11 && r[..3] == "AER"
    ensures AllDigits(r[3..])
    ensures r[3..] == LastEight(Decimal(now))
  {
    "AER" + LastEight(Decimal(now))
  }

  /** Once the clock reads at least 10^7 ms, numbers have all eight digits. */
  lemma OrderNumberLength(now: nat)
    requires now >= 10000000
    ensures |OrderNumber(now)| == 11
  {
    assert Pow10(7) == 10000000;
    DecimalLength(now, 8);
  }

  function Pow10(k: nat): nat {
    if k == 0 then 1 else 10 * Pow10(k - 1)
  }

  /** A number of at least 10^(k-1) has at least k decimal digits. */
  lemma {:induction false} DecimalLength(n: nat, k: nat)
    requires k >= 1 && n >= Pow10(k - 1)
    ensures |Decimal(n)| >= k
  {
    if k > 1 {
      assert n / 10 >= Pow10(k - 2);
      DecimalLength(n / 10, k - 1);
    }
  }

  /** The order summary shown on the thank-you page. */
  datatype Order = Order(number: string, lines: seq<Cart.Line>, lineTotals: seq<int>, total: int)
}
