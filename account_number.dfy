/** Account numbers (app/utils/account_number.py): "SBK" followed by nine decimal digits.
    The digits `random.choices(string.digits, k=9)` would draw are supplied by the caller. */
module AccountNumber {

  predicate IsDigit(c: char)
  {
    '0' <= c <= '9'
  }

  /** What one call of `random.choices(string.digits, k=9)` can return. */
  predicate IsDigitDraw(digits: string)
  {
    |digits| == 9 && forall k :: 0 <= k < 9 ==> IsDigit(digits[k])
  }

  /** The format every generated account number has. */
  predicate IsAccountNumber(s: string)
  {
    |s| == 12 && s[..3] == "SBK" && forall k :: 3 <= k < 12 ==> IsDigit(s[k])
  }

  /** `generate_account_number`, given the digits drawn. */
  function GenerateAccountNumber(digits: string): (number: string)
    requires IsDigitDraw(digits)
    ensures IsAccountNumber(number)
    ensures number[3..] == digits
  {
    "SBK" + digits
  }

  /** Distinct draws give distinct account numbers. */
  lemma GenerateInjective(d1: string, d2: string)
    requires IsDigitDraw(d1) && IsDigitDraw(d2) && d1 != d2
    ensures GenerateAccountNumber(d1) != GenerateAccountNumber(d2)
  {
    assert GenerateAccountNumber(d1)[3..] != GenerateAccountNumber(d2)[3..];
  }

  /** Every string of the account-number format is generated by exactly its own digits. */
  lemma {:induction false} EveryAccountNumberIsGenerated(s: string)
    requires IsAccountNumber(s)
    ensures IsDigitDraw(s[3..]) && GenerateAccountNumber(s[3..]) == s
  {
    assert forall k :: 0 <= k < 9 ==> s[3..][k] == s[k + 3];
    assert s == s[..3] + s[3..];
  }
}
