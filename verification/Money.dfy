/** Amounts in pesewas: their decimal text form, the fee, and who pays it. */
module Money {

  datatype Option<+T> = None | Some(value: T)

  datatype Bearer = Initiator | NonInitiator

  predicate IsDigit(c: char) { '0' <= c <= '9' }

  predicate AllDigits(s: string) { forall i :: 0 <= i < |s| ==> IsDigit(s[i]) }

  function NumberOf(s: string): nat
    requires AllDigits(s)
  {
    if s == [] then 0 else NumberOf(s[..|s| - 1]) * 10 + (s[|s| - 1] - '0') as nat
  }

  /** An amount has at least one digit, a point and exactly two decimals. */
  predicate AmountText(s: string)
  {
    && |s| >= 4
    && s[|s| - 3] == '.'
    && AllDigits(s[..|s| - 3])
    && AllDigits(s[|s| - 2..])
  }

  /** "120.00" is 12000; zero, malformed text and text over 14 characters are refused. */
  function ParseAmount(s: string): Option<nat>
  {
    if !AmountText(s) || |s| > 14 then None
    else
      var n := NumberOf(s[..|s| - 3]) * 100 + NumberOf(s[|s| - 2..]);
      if n > 0 then Some(n) else None
  }

  function DigitOf(d: nat): char
    requires d < 10
  {
    '0' + d as char
  }

  function Digits(n: nat): (s: string)
    ensures AllDigits(s) && |s| >= 1
  {
    if n < 10 then [DigitOf(n)] else Digits(n / 10) + [DigitOf(n % 10)]
  }

  function Fmt(pesewas: nat): string
  {
    Digits(pesewas / 100) + ['.', DigitOf(pesewas / 10 % 10), DigitOf(pesewas % 10)]
  }

  function Pow10(k: nat): nat { if k == 0 then 1 else 10 * Pow10(k - 1) }

  lemma {:induction false} DigitsRoundTrip(n: nat)
    ensures NumberOf(Digits(n)) == n
  {
    if n >= 10 {
      DigitsRoundTrip(n / 10);
      assert Digits(n)[..|Digits(n)| - 1] == Digits(n / 10);
    }
  }

  lemma {:induction false} DigitCount(n: nat, k: nat)
    requires k >= 1
    ensures |Digits(n)| <= k <==> n < Pow10(k)
  {
    assert Pow10(1) == 10;
    if k > 1 && n >= 10 {
      DigitCount(n / 10, k - 1);
    } else if k > 1 {
      PowGrows(k);
    }
  }

  lemma {:induction false} PowGrows(k: nat)
    requires k >= 1
    ensures Pow10(k) >= 10
  {
    if k > 1 { PowGrows(k - 1); }
  }

  /** Printing and parsing undo each other exactly on the positive amounts that fit in 14 characters. */
  lemma AmountRoundTrip(n: nat)
    ensures ParseAmount(Fmt(n)) == Some(n) <==> 0 < n < 10_000_000_000_000
  {
    hide Digits, NumberOf, Pow10;
    var s := Fmt(n);
    assert s[..|s| - 3] == Digits(n / 100);
    assert s[|s| - 2..] == [DigitOf(n / 10 % 10), DigitOf(n % 10)];
    DigitsRoundTrip(n / 100);
    TwoDigits(n);
    DigitCount(n / 100, 11);
    ElevenDigits();
  }

  lemma TwoDigits(n: nat)
    ensures NumberOf([DigitOf(n / 10 % 10), DigitOf(n % 10)]) == n % 100
  {
    hide NumberOf, DigitOf;
    TwoDigitText(n / 10 % 10, n % 10);
    Cents(n);
  }

  lemma Cents(n: nat)
    ensures n % 100 == n / 10 % 10 * 10 + n % 10
  {
    var h, c := n / 100, n % 100;
    assert n / 10 == 10 * h + c / 10;
    assert n / 10 % 10 == c / 10 && n % 10 == c % 10;
  }

  lemma TwoDigitText(tens: nat, ones: nat)
    requires tens < 10 && ones < 10
    ensures NumberOf([DigitOf(tens), DigitOf(ones)]) == tens * 10 + ones
  {
    var text := [DigitOf(tens), DigitOf(ones)];
    assert text[..1] == [DigitOf(tens)] && text[..1][..0] == [];
    assert NumberOf(text[..1]) == tens;
  }

  lemma ElevenDigits()
    ensures Pow10(11) == 100_000_000_000
  {
    assert Pow10(5) == 100_000;
    assert Pow10(8) == 100_000_000;
  }

  /** Rounds half up, as Math.round does. */
  function Round(x: real): int { (x + 0.5).Floor }

  /** The fee is the rounded share of the amount, but never under 10 pesewas. */
  function Fee(amount: nat, rate: real): (fee: nat)
    ensures fee >= 10
  {
    var share := Round(amount as real * rate);
    if share > 10 then share else 10
  }

  function PayerAmount(amount: nat, fee: nat, bearer: Bearer): nat
  {
    if bearer == Initiator then amount + fee else amount
  }

  function RecipientAmount(amount: nat, fee: nat, bearer: Bearer): int
  {
    if bearer == Initiator then amount else amount - fee
  }

  /** The recipient is owed something exactly when the payer bears the fee or the amount exceeds
      the 10-pesewa minimum fee. Below that a collection credits nothing or a negative sum. */
  lemma RecipientIsOwed(amount: nat, rate: real, bearer: Bearer)
    requires amount > 0 && 0.0 <= rate <= 0.5
    ensures RecipientAmount(amount, Fee(amount, rate), bearer) > 0
       <==> bearer == Initiator || amount > 10
  {
    var a := amount as real;
    assert a * rate <= a * 0.5;
    assert (a * 0.5 + 0.5).Floor <= (amount + 1) / 2;
    assert (a * rate + 0.5).Floor <= (a * 0.5 + 0.5).Floor;
  }
}
