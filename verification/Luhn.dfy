/** The Luhn check on card numbers (Annex B of ISO/IEC 7812-1): what it accepts and which mistakes it
    always catches. */
module Luhn {
  import opened Money

  function Digit(c: char): nat
    requires IsDigit(c)
  {
    (c - '0') as nat
  }

  /** What a digit adds to the sum: every second one, from the right, is doubled and its digits added. */
  function Contribution(d: nat, doubled: bool): (n: nat)
    requires d < 10
    ensures n < 10
  {
    if !doubled then d else if d * 2 > 9 then d * 2 - 9 else d * 2
  }

  predicate Doubled(length: nat, i: nat)
    requires i < length
  {
    (length - 1 - i) % 2 == 1
  }

  /** The sum over the digits from position i on. */
  function SumFrom(s: string, i: nat): nat
    requires AllDigits(s) && i <= |s|
    decreases |s| - i
  {
    if i == |s| then 0 else Contribution(Digit(s[i]), Doubled(|s|, i)) + SumFrom(s, i + 1)
  }

  predicate Valid(s: string) { 12 <= |s| <= 19 && AllDigits(s) && SumFrom(s, 0) % 10 == 0 }

  method LuhnValid(digits: string) returns (ok: bool)
    ensures ok <==> Valid(digits)
  {
    if !(12 <= |digits| <= 19 && AllDigits(digits)) { return false; }
    var sum, alt, i := 0, false, |digits|;
    while i > 0
      invariant 0 <= i <= |digits| && sum == SumFrom(digits, i)
      invariant alt <==> (|digits| - i) % 2 == 1
    {
      i := i - 1;
      var n := (digits[i] - '0') as int;
      if alt {
        n := n * 2;
        if n > 9 { n := n - 9; }
      }
      sum := sum + n;
      alt := !alt;
    }
    return sum % 10 == 0;
  }

  /** Two digits that add the same are the same, doubled or not. */
  lemma ContributionInjective(d: nat, e: nat, doubled: bool)
    requires d < 10 && e < 10 && d != e
    ensures Contribution(d, doubled) != Contribution(e, doubled)
  {
  }

  lemma MovedSum(sum: int, delta: int)
    requires sum % 10 == 0
    ensures (sum + delta) % 10 == 0 <==> delta % 10 == 0
  {
  }

  /** Replacing one digit moves the sum by the difference of the two contributions. */
  lemma {:induction false} SumReplace(s: string, i: nat, c: char, k: nat)
    requires AllDigits(s) && i < |s| && IsDigit(c) && k <= |s|
    ensures AllDigits(s[i := c])
    ensures SumFrom(s[i := c], k) ==
            if i < k then SumFrom(s, k)
            else SumFrom(s, k) - Contribution(Digit(s[i]), Doubled(|s|, i)) + Contribution(Digit(c), Doubled(|s|, i))
    decreases |s| - k
  {
    if k < |s| { SumReplace(s, i, c, k + 1); }
  }

  /** Changing any single digit of a valid number makes it invalid. */
  lemma SingleDigitErrorDetected(s: string, i: nat, c: char)
    requires Valid(s) && i < |s| && IsDigit(c) && c != s[i]
    ensures !Valid(s[i := c])
  {
    hide SumFrom, Contribution;
    var before: int := Contribution(Digit(s[i]), Doubled(|s|, i));
    var after: int := Contribution(Digit(c), Doubled(|s|, i));
    SumReplace(s, i, c, 0);
    ContributionInjective(Digit(s[i]), Digit(c), Doubled(|s|, i));
    MovedSum(SumFrom(s, 0), after - before);
  }

  /** Swapping two adjacent unequal digits of a valid number goes unnoticed exactly for 0 and 9. */
  lemma AdjacentSwapDetected(s: string, i: nat)
    requires Valid(s) && i + 1 < |s| && s[i] != s[i + 1]
    ensures Valid(s[i := s[i + 1]][i + 1 := s[i]]) <==> {s[i], s[i + 1]} == {'0', '9'}
  {
    hide SumFrom, Contribution;
    var t := s[i := s[i + 1]];
    var d, e, x := Digit(s[i]), Digit(s[i + 1]), Doubled(|s|, i);
    SumReplace(s, i, s[i + 1], 0);
    SumReplace(t, i + 1, s[i], 0);
    assert Doubled(|s|, i + 1) == !x;
    SwapMoves(d, e, x);
    MovedSum(SumFrom(s, 0), Contribution(e, x) + Contribution(d, !x) - Contribution(d, x) - Contribution(e, !x));
    SamePair(s[i], s[i + 1]);
  }

  lemma SamePair(c: char, d: char)
    ensures {c, d} == {'0', '9'} <==> (c == '0' && d == '9') || (c == '9' && d == '0')
  {
    if {c, d} == {'0', '9'} {
      assert c in {'0', '9'} && d in {'0', '9'} && '0' in {c, d} && '9' in {c, d};
    }
  }

  lemma SwapMoves(d: nat, e: nat, doubled: bool)
    requires d < 10 && e < 10 && d != e
    ensures (Contribution(e, doubled) + Contribution(d, !doubled) - Contribution(d, doubled) - Contribution(e, !doubled)) % 10 == 0
       <==> (d == 0 && e == 9) || (d == 9 && e == 0)
  {
  }

  /** Every number of 11 to 18 digits has exactly one check digit that makes it valid. */
  lemma UniqueCheckDigit(payload: string) returns (check: char)
    requires 11 <= |payload| <= 18 && AllDigits(payload)
    ensures IsDigit(check) && Valid(payload + [check])
    ensures forall c :: IsDigit(c) && Valid(payload + [c]) ==> c == check
  {
    var s := payload + ['0'];
    var last := |payload|;
    var rest := SumFrom(s, 0) % 10;
    check := DigitOf((10 - rest) % 10);
    assert s[last := check] == payload + [check];
    SumReplace(s, last, check, 0);
    forall c | IsDigit(c) && c != check ensures !Valid(payload + [c]) {
      SingleDigitErrorDetected(payload + [check], last, c);
      assert (payload + [check])[last := c] == payload + [c];
    }
  }
}
