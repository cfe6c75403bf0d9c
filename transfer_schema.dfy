/** The validation schema of the transfer form: a bank must be present, the
    account number must be exactly ten decimal digits, and the amount text
    must convert to a number greater than zero. */
module TransferSchema {
  import opened Wrappers
  import opened DecimalText

  /** The values the transfer form holds. `bank` is `None` until a bank is
      selected (the form has no default for it). */
  datatype TransferForm = TransferForm(bank: Option<string>, accountNumber: string, amount: string)

  // ---------------------------------------------------------------------
  // bank and accountNumber
  // ---------------------------------------------------------------------

  /** `z.string()`: any string is accepted, a missing value is not. */
  predicate BankValid(bank: Option<string>)
  {
    bank.Some?
  }

  /** `/^\d+$/.test(s)`: one or more digits and nothing else. */
  function MatchesDigits(s: string): bool
  {
    if s == [] then false
    else IsDigit(s[0]) && (|s| == 1 || MatchesDigits(s[1..]))
  }

  lemma {:induction false} MatchesDigitsIff(s: string)
    ensures MatchesDigits(s) <==> |s| > 0 && AllDigits(s)
  {
    if |s| > 1 {
      MatchesDigitsIff(s[1..]);
      assert forall i :: 1 <= i < |s| ==> s[i] == s[1..][i - 1];
    }
  }

  /** `.length(10)` followed by `.regex(/^\d+$/)`. */
  predicate AccountNumberValid(s: string)
  {
    |s| == 10 && MatchesDigits(s)
  }

  /** An account number is accepted iff it is ten characters long and every
      one of them is 0-9: a digit string of any other length is rejected, and
      so is a ten-character string with a non-digit in it. */
  lemma AccountNumberValidIff(s: string)
    ensures AccountNumberValid(s) <==> |s| == 10 && AllDigits(s)
  {
    MatchesDigitsIff(s);
  }

  // ---------------------------------------------------------------------
  // amount: `Number(val)` on decimal notation
  // ---------------------------------------------------------------------

  /** A JavaScript number as far as the amount check needs one. */
  datatype JsNumber = NaN | Num(value: real)

  /** The ASCII part of the white space `Number()` ignores around its input. */
  predicate IsSpace(c: char)
  {
    c == ' ' || '\t' <= c <= '\r'
  }

  function TrimStart(s: string): (r: string)
    ensures |r| <= |s|
  {
    if s != [] && IsSpace(s[0]) then TrimStart(s[1..]) else s
  }

  function TrimEnd(s: string): (r: string)
    ensures |r| <= |s|
  {
    if s != [] && IsSpace(s[|s| - 1]) then TrimEnd(s[..|s| - 1]) else s
  }

  function Trim(s: string): string
  {
    TrimEnd(TrimStart(s))
  }

  /** Position of the first `c` in `s`, or `|s|` when there is none. */
  function IndexOf(s: string, c: char): (i: nat)
    ensures i <= |s|
    ensures i < |s| ==> s[i] == c
    ensures forall j :: 0 <= j < i ==> s[j] != c
  {
    if s == [] then 0 else if s[0] == c then 0 else 1 + IndexOf(s[1..], c)
  }

  /** Digits with at most one decimal point and at least one digit: `12`, `12.5`, `.5`, `12.`. */
  function UnsignedDecimal(u: string): JsNumber
  {
    var i := IndexOf(u, '.');
    if i == |u| then
      if |u| > 0 && AllDigits(u) then Num(DigitsValue(u) as real) else NaN
    else
      var whole, fraction := u[..i], u[i + 1..];
      if AllDigits(whole) && AllDigits(fraction) && |whole| + |fraction| > 0
      then Num(DigitsValue(whole) as real + DigitsValue(fraction) as real / Pow10(|fraction|) as real)
      else NaN
  }

  function Negate(n: JsNumber): JsNumber
  {
    if n.NaN? then NaN else Num(-n.value)
  }

  /** `Number(val)` for a string: surrounding white space is ignored, empty
      text is 0, then an optional sign and a decimal literal; anything else
      is NaN. */
  function ToNumber(s: string): JsNumber
  {
    var t := Trim(s);
    if t == [] then Num(0.0)
    else if t[0] == '-' then Negate(UnsignedDecimal(t[1..]))
    else if t[0] == '+' then UnsignedDecimal(t[1..])
    else UnsignedDecimal(t)
  }

  /** `!isNaN(Number(val)) && Number(val) > 0`. */
  predicate AmountValid(s: string)
  {
    var n := ToNumber(s);
    n.Num? && n.value > 0.0
  }

  /** The whole schema. */
  predicate FormValid(f: TransferForm)
  {
    BankValid(f.bank) && AccountNumberValid(f.accountNumber) && AmountValid(f.amount)
  }

  /** The form is valid iff some bank is present (any name, with no check
      against the bank list), the account number is ten digits, and the
      amount converts to a positive number. */
  lemma FormValidIff(f: TransferForm)
    ensures FormValid(f) <==>
              (exists b :: f.bank == Some(b)) &&
              |f.accountNumber| == 10 && AllDigits(f.accountNumber) &&
              ToNumber(f.amount).Num? && ToNumber(f.amount).value > 0.0
  {
    AccountNumberValidIff(f.accountNumber);
    if f.bank.Some? {
      assert f.bank == Some(f.bank.value);
    }
  }

  lemma UnsignedDecimalNonNegative(u: string)
    ensures UnsignedDecimal(u).Num? ==> UnsignedDecimal(u).value >= 0.0
  {
  }

  lemma {:induction false} TrimEndKeepsHead(c: char, s: string)
    requires !IsSpace(c)
    ensures TrimEnd([c] + s) == [c] + TrimEnd(s)
    decreases |s|
  {
    var t := [c] + s;
    if s != [] && IsSpace(s[|s| - 1]) {
      assert t[..|t| - 1] == [c] + s[..|s| - 1];
      TrimEndKeepsHead(c, s[..|s| - 1]);
    }
  }

  /** A minus sign in front rejects the amount, whatever follows it. */
  lemma NegativeAmountRejected(s: string)
    ensures !AmountValid("-" + s)
  {
    TrimEndKeepsHead('-', s);
    var t := Trim("-" + s);
    assert t[0] == '-';
    UnsignedDecimalNonNegative(t[1..]);
  }

  /** Text with nothing but digits converts to the number it spells. */
  lemma DigitStringToNumber(s: string)
    requires |s| > 0 && AllDigits(s)
    ensures ToNumber(s) == Num(DigitsValue(s) as real)
  {
    assert TrimStart(s) == s by {
      assert !IsSpace(s[0]);
    }
    assert TrimEnd(s) == s by {
      assert !IsSpace(s[|s| - 1]);
    }
    assert !(s[0] == '-' || s[0] == '+');
    var i := IndexOf(s, '.');
    assert i == |s| by {
      assert forall k :: 0 <= k < |s| ==> s[k] != '.';
    }
  }

  /** Round trip: the decimal spelling of a whole number converts back to it,
      so it is accepted as an amount iff it is not zero. */
  lemma ToNumberOfNatToString(n: nat)
    ensures ToNumber(NatToString(n)) == Num(n as real)
    ensures AmountValid(NatToString(n)) <==> n > 0
  {
    DigitStringToNumber(NatToString(n));
    DigitsValueOfNatToString(n);
  }

  /** Empty text and zero are rejected, and so is text that is not a number. */
  lemma RejectedAmountExamples()
    ensures !AmountValid("") && !AmountValid("0") && !AmountValid("abc")
  {
    DigitStringToNumber("0");
    assert TrimStart("abc") == "abc" && TrimEnd("abc") == "abc";
  }

  /** A whole positive amount is accepted. */
  lemma AcceptedWholeAmount()
    ensures ToNumber("5000") == Num(5000.0) && AmountValid("5000")
  {
    assert NatToString(5000) == "5000";
    ToNumberOfNatToString(5000);
  }

  /** A decimal amount below one is accepted. */
  lemma AcceptedDecimalAmount()
    ensures AmountValid("0.50")
  {
    var u := "0.50";
    assert TrimStart(u) == u && TrimEnd(u) == u;
    assert IndexOf(u, '.') == 1;
    assert u[..1] == "0" && u[2..] == "50";
    assert NatToString(50) == "50";
    DigitsValueOfNatToString(50);
  }

  /** Spaces around an amount are ignored. */
  lemma AcceptedPaddedAmount()
    ensures AmountValid(" 12 ")
  {
    var v := " 12 ";
    assert TrimStart(v) == "12 " by {
      assert v[1..] == "12 ";
    }
    assert TrimEnd("12 ") == "12" by {
      assert "12 "[..2] == "12";
    }
    assert NatToString(12) == "12";
    ToNumberOfNatToString(12);
  }
}
