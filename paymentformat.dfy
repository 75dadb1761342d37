/** The cosmetic formatters of the payment form's card number, expiry date
    and CVV fields. They reshape what was typed and check nothing. */
module PaymentFormat {
  import opened Text

  /** Spaces sit exactly at the positions 4, 9, 14, ... */
  predicate SpacedEveryFive(r: string) {
    forall i :: 0 <= i < |r| ==> (r[i] == ' ' <==> i % 5 == 4)
  }

  /** A group of four digits and a space in front of a grouped string keeps
      the spaces every five positions. */
  lemma SpacedPrefix(g: string, rest: string)
    requires |g| == 4 && AllDigits(g) && SpacedEveryFive(rest)
    ensures SpacedEveryFive(g + " " + rest)
  {
    var r := g + " " + rest;
    forall i | 0 <= i < |r| ensures (r[i] == ' ' <==> i % 5 == 4) {
      if i >= 5 {
        assert r[i] == rest[i - 5];
        assert (i - 5) % 5 == i % 5;
      }
    }
  }

  /** The digits of a grouped string are the group's digits followed by
      those of the rest. */
  lemma DigitsOfGroup(g: string, rest: string)
    requires AllDigits(g)
    ensures Digits(g + " " + rest) == g + Digits(rest)
  {
    var sp: string := " ";
    assert Digits(sp) == [] by {
      assert sp[1..] == [];
    }
    DigitsAppend(g, sp);
    assert Digits(g + sp) == g;
    DigitsAppend(g + sp, rest);
  }

  /** Digits in groups of four separated by single spaces, the last group
      holding one to four digits: `value.match(/.{1,4}/g)?.join(' ') || value`
      for a digit string `value`. */
  function GroupBy4(d: string): (r: string)
    requires AllDigits(d)
    ensures forall i :: 0 <= i < |r| ==> IsDigit(r[i]) || r[i] == ' '
    ensures SpacedEveryFive(r)
    ensures r == [] <==> d == []
    ensures r != [] ==> r[|r| - 1] != ' '
    ensures Digits(r) == d
    decreases |d|
  {
    if |d| <= 4 then d
    else
      var rest := GroupBy4(d[4..]);
      GroupStep(d, rest);
      d[..4] + " " + rest
  }

  /** The step of `GroupBy4`: the first four digits and a space in front of
      the grouping of the others. */
  lemma GroupStep(d: string, rest: string)
    requires |d| > 4 && AllDigits(d)
    requires forall i :: 0 <= i < |rest| ==> IsDigit(rest[i]) || rest[i] == ' '
    requires SpacedEveryFive(rest) && rest != [] && rest[|rest| - 1] != ' '
    requires Digits(rest) == d[4..]
    ensures var r := d[..4] + " " + rest;
            (forall i :: 0 <= i < |r| ==> IsDigit(r[i]) || r[i] == ' ') &&
            SpacedEveryFive(r) && r[|r| - 1] != ' ' && Digits(r) == d
  {
    var r := d[..4] + " " + rest;
    SpacedPrefix(d[..4], rest);
    DigitsOfGroup(d[..4], rest);
    assert d == d[..4] + d[4..];
    assert r[|r| - 1] == rest[|rest| - 1];
    forall i | 0 <= i < |r| ensures IsDigit(r[i]) || r[i] == ' ' {
      if i >= 5 {
        assert r[i] == rest[i - 5];
      }
    }
  }

  /** The card number field: whitespace and non-digits removed, then grouped. */
  function FormatCardNumber(input: string): (r: string)
    ensures forall i :: 0 <= i < |r| ==> IsDigit(r[i]) || r[i] == ' '
    ensures SpacedEveryFive(r)
    ensures r != [] ==> r[|r| - 1] != ' '
    ensures Digits(r) == Digits(input)
  {
    GroupBy4(Digits(input))
  }

  /** Formatting an already formatted card number changes nothing. */
  lemma FormatCardNumberIdempotent(input: string)
    ensures FormatCardNumber(FormatCardNumber(input)) == FormatCardNumber(input)
  {
  }

  function Min(a: int, b: int): int {
    if a < b then a else b
  }

  /** The expiry field: digits only; from two digits on, a slash after the
      first two and at most two digits after it. */
  function FormatExpiry(input: string): (r: string)
    ensures |Digits(input)| < 2 ==> r == Digits(input)
    ensures |Digits(input)| >= 2 ==>
              r == Digits(input)[..2] + "/" + Digits(input)[2..Min(4, |Digits(input)|)]
    ensures |r| <= 5
    ensures Digits(r) == Digits(input)[..Min(4, |Digits(input)|)]
  {
    var d := Digits(input);
    if |d| >= 2 then
      ExpiryDigits(d);
      d[..2] + "/" + d[2..Min(4, |d|)]
    else
      d
  }

  /** The digits of `MM/YY` are the first four digits it was built from. */
  lemma ExpiryDigits(d: string)
    requires AllDigits(d) && |d| >= 2
    ensures Digits(d[..2] + "/" + d[2..Min(4, |d|)]) == d[..Min(4, |d|)]
  {
    var mm, yy := d[..2], d[2..Min(4, |d|)];
    DigitsAppend(mm + "/", yy);
    DigitsAppend(mm, "/");
    assert Digits("/") == [] by {
      assert "/"[1..] == [];
    }
    assert d[..Min(4, |d|)] == mm + yy;
  }

  /** Formatting an already formatted expiry changes nothing. */
  lemma FormatExpiryIdempotent(input: string)
    ensures FormatExpiry(FormatExpiry(input)) == FormatExpiry(input)
  {
    var d := Digits(input);
    var e := Digits(FormatExpiry(input));
    assert e == d[..Min(4, |d|)];
    if |d| >= 2 {
      assert e[..2] == d[..2];
      assert e[2..Min(4, |e|)] == d[2..Min(4, |d|)];
    }
  }

  /** The CVV field: digits only, at most four. */
  function FormatCvv(input: string): (r: string)
    ensures AllDigits(r)
    ensures |r| == Min(4, |Digits(input)|)
    ensures r <= Digits(input)
  {
    var d := Digits(input);
    d[..Min(4, |d|)]
  }

  /** Formatting an already formatted CVV changes nothing. */
  lemma FormatCvvIdempotent(input: string)
    ensures FormatCvv(FormatCvv(input)) == FormatCvv(input)
  {
  }
}
