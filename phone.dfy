/** The phone check of the reservation form: the regular expression
    `^\+?\d{10,15}$` (no flags, so `\d` is exactly '0'..'9' and `$` is the end
    of the input), and the error text the form shows when it fails. */
module Phone {

  const MinDigits: nat := 10
  const MaxDigits: nat := 15

  const InvalidPhoneText: string := "Enter a valid phone number (10–15 digits)"

  predicate IsAsciiDigit(c: char)
  {
    '0' <= c <= '9'
  }

  predicate AllDigits(s: string)
  {
    forall i :: 0 <= i < |s| ==> IsAsciiDigit(s[i])
  }

  /** What follows the optional leading '+'. */
  function AfterPlus(s: string): string
  {
    if |s| > 0 && s[0] == '+' then s[1..] else s
  }

  /** The language of the pattern, stated directly: an optional leading '+',
      then between 10 and 15 ASCII digits and nothing else. */
  predicate IsPhoneNumber(s: string)
  {
    MinDigits <= |AfterPlus(s)| <= MaxDigits && AllDigits(AfterPlus(s))
  }

  /** Matching `\d{10,15}$` against `s` when `n` digits have already been
      taken. Greedy; backing off to fewer digits never helps, because `$`
      then faces a character that is still unread. */
  function DigitsToEnd(s: string, n: nat): bool
    requires n <= MaxDigits
    decreases |s|
  {
    if s == [] then MinDigits <= n
    else IsAsciiDigit(s[0]) && n < MaxDigits && DigitsToEnd(s[1..], n + 1)
  }

  lemma {:induction false} DigitsToEndMatchesDigitRun(s: string, n: nat)
    requires n <= MaxDigits
    ensures DigitsToEnd(s, n) <==>
      (MinDigits <= n + |s| <= MaxDigits && AllDigits(s))
  {
    if s != [] {
      if n < MaxDigits {
        DigitsToEndMatchesDigitRun(s[1..], n + 1);
        if AllDigits(s[1..]) {
          if IsAsciiDigit(s[0]) {
            forall i | 0 <= i < |s| ensures IsAsciiDigit(s[i]) {
              if i > 0 { assert s[i] == s[1..][i - 1]; }
            }
          }
        } else {
          var j :| 0 <= j < |s[1..]| && !IsAsciiDigit(s[1..][j]);
          assert !IsAsciiDigit(s[j + 1]);
        }
      }
    }
  }

  /** `phoneRegex.test(s)`: the optional `+` is tried taken first, then
      skipped. It accepts exactly the strings the pattern describes. */
  function RegexTest(s: string): (r: bool)
    ensures r <==> IsPhoneNumber(s)
  {
    DigitsToEndMatchesDigitRun(s, 0);
    if |s| > 0 && s[0] == '+' then
      DigitsToEndMatchesDigitRun(s[1..], 0);
      // skipping the '+' leaves it to `\d`, which it is not
      assert !IsAsciiDigit(s[0]);
      DigitsToEnd(s[1..], 0) || DigitsToEnd(s, 0)
    else
      DigitsToEnd(s, 0)
  }

  /** The value `validatePhone(v)` stores in `phoneError`: empty exactly when
      `v` is a phone number, the fixed text otherwise. It depends on `v`
      alone. */
  function PhoneError(v: string): (r: string)
    ensures r == [] <==> IsPhoneNumber(v)
    ensures r != [] ==> r == InvalidPhoneText
  {
    if RegexTest(v) then [] else InvalidPhoneText
  }

  /** The worked examples: two accepted numbers, two rejected ones. */
  lemma PhoneErrorExamples()
    ensures PhoneError("5551234567") == []
    ensures PhoneError("+15551234567") == []
    ensures PhoneError("123") == InvalidPhoneText
    ensures PhoneError("abc1234567") == InvalidPhoneText
  {
    var a := "5551234567";
    assert AfterPlus(a) == a;
    assert AllDigits(a) by {
      forall i | 0 <= i < |a| ensures IsAsciiDigit(a[i]) {}
    }
    assert IsPhoneNumber(a);
    var b := "+15551234567";
    assert AfterPlus(b) == b[1..] == "1" + a;
    assert AllDigits(AfterPlus(b)) by {
      forall i | 0 <= i < |b[1..]| ensures IsAsciiDigit(b[1..][i]) {}
    }
    assert IsPhoneNumber(b);
    var c := "abc1234567";
    assert !IsAsciiDigit(AfterPlus(c)[0]);
  }
}
