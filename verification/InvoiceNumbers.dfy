// The invoice number `INV-{year}-{payment.id:06d}`: the unique column never collides.

module InvoiceNumbers {

  function Digit(n: nat): char
    requires n < 10
  {
    "0123456789"[n]
  }

  function DigitValue(c: char): nat {
    if '0' <= c <= '9' then c as int - '0' as int else 0
  }

  /** str(n) */
  function Decimal(n: nat): (r: string)
    ensures |r| >= 1
    ensures forall k :: 0 <= k < |r| ==> '0' <= r[k] <= '9'
  {
    if n < 10 then [Digit(n)] else Decimal(n / 10) + [Digit(n % 10)]
  }

  /** f"{n:06d}" */
  function Padded(digits: string): (r: string)
    decreases 6 - |digits|
  {
    if |digits| >= 6 then digits else Padded("0" + digits)
  }

  function Number(year: nat, paymentId: nat): string {
    "INV-" + Decimal(year) + "-" + Padded(Decimal(paymentId))
  }

  function Value(digits: string): nat {
    if digits == "" then 0
    else Value(digits[..|digits| - 1]) * 10 + DigitValue(digits[|digits| - 1])
  }

  lemma {:induction false} ValueOfDecimal(n: nat)
    ensures Value(Decimal(n)) == n
  {
    if n >= 10 {
      ValueOfDecimal(n / 10);
      assert Decimal(n)[..|Decimal(n)| - 1] == Decimal(n / 10);
    } else {
      assert Decimal(n)[..0] == "";
    }
  }

  lemma {:induction false} LeadingZero(digits: string)
    ensures Value("0" + digits) == Value(digits)
  {
    var padded := "0" + digits;
    if digits == "" {
      assert padded[..0] == "";
    } else {
      LeadingZero(digits[..|digits| - 1]);
      assert padded[..|padded| - 1] == "0" + digits[..|digits| - 1];
    }
  }

  lemma {:induction false} PaddedKeepsValue(digits: string)
    requires forall k :: 0 <= k < |digits| ==> digits[k] != '-'
    ensures Value(Padded(digits)) == Value(digits)
    ensures forall k :: 0 <= k < |Padded(digits)| ==> Padded(digits)[k] != '-'
    decreases 6 - |digits|
  {
    if |digits| < 6 {
      LeadingZero(digits);
      PaddedKeepsValue("0" + digits);
    }
  }

  /** Two texts that agree after their last dash. */
  lemma SuffixAfterDash(a: string, x: string, b: string, y: string)
    requires a + "-" + x == b + "-" + y
    requires forall k :: 0 <= k < |x| ==> x[k] != '-'
    requires forall k :: 0 <= k < |y| ==> y[k] != '-'
    ensures x == y
  {
    var whole := a + "-" + x;
    assert whole[|a|] == '-' && whole[|b|] == (b + "-" + y)[|b|] == '-';
    assert forall k :: |a| < k < |whole| ==> whole[k] == x[k - |a| - 1];
    assert forall k :: |b| < k < |whole| ==> whole[k] == (b + "-" + y)[k] == y[k - |b| - 1];
    assert |a| == |b|;
    assert whole[|a| + 1..] == x;
    assert (b + "-" + y)[|b| + 1..] == y;
  }

  /** Distinct payments never share an invoice number, whatever the years and however long the ids. */
  lemma NumbersDiffer(year: nat, year': nat, id: nat, id': nat)
    requires id != id'
    ensures Number(year, id) != Number(year', id')
  {
    ValueOfDecimal(id);
    ValueOfDecimal(id');
    PaddedKeepsValue(Decimal(id));
    PaddedKeepsValue(Decimal(id'));
    if Number(year, id) == Number(year', id') {
      SuffixAfterDash("INV-" + Decimal(year), Padded(Decimal(id)), "INV-" + Decimal(year'), Padded(Decimal(id')));
    }
  }
}
