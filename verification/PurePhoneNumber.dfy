/** The recogniser of phone numbers: a scan with three counters, and the grammar that it decides. */
module PurePhoneNumbers {
  import opened PhoneText

  const MIN_LENGTH := 5
  const MAX_LENGTH := 20
  const MIN_DIGITS := 5
  const MIN_DIGITS_WITH_PLUS := 8

  predicate IsValidLength(s: string) {
    s != "" && |s| >= MIN_LENGTH && |s| <= MAX_LENGTH
  }

  predicate IsBesideBracket(c: char) {
    IsDigit(c) || c == ' ' || c == '-'
  }

  predicate IsValidCharBeforeOpenBracket(s: string, i: nat)
    requires i < |s|
  {
    i == 0 || IsBesideBracket(s[i - 1])
  }

  predicate IsValidCharAfterCloseBracket(s: string, i: nat)
    requires i < |s|
  {
    i >= |s| - 1 || IsBesideBracket(s[i + 1])
  }

  predicate HasMinDigits(digitCount: nat, hasLeadingPlus: bool) {
    digitCount >= MIN_DIGITS && (hasLeadingPlus ==> digitCount >= MIN_DIGITS_WITH_PLUS)
  }

  predicate IsOpen(c: char) { c == '(' }

  predicate IsClose(c: char) { c == ')' }

  // ---------- the grammar ----------

  // What may stand in front of an opening or behind a closing bracket.
  predicate BesideBracket(c: char) {
    c in "0123456789 -"
  }

  lemma BesideBracketTest(c: char)
    ensures IsBesideBracket(c) <==> BesideBracket(c)
  {
    TheDigits(c);
    assert "0123456789 -" == "0123456789" + " -";
  }

  predicate LegalAt(s: string, i: nat)
    requires i < |s|
  {
    || '0' <= s[i] <= '9' || s[i] == '-' || s[i] == ' '
    || (s[i] == '+' && i == 0)
    || (s[i] == '(' && (i == 0 || BesideBracket(s[i - 1])))
    || (s[i] == ')' && (i == |s| - 1 || BesideBracket(s[i + 1])))
  }

  // No more brackets are closed than opened.
  ghost predicate BalancedUpTo(s: string, n: nat)
    requires n <= |s|
  {
    forall k {:trigger s[..k]} :: 0 <= k <= n ==> Count(s[..k], IsClose) <= Count(s[..k], IsOpen)
  }

  predicate StartsWithPlus(s: string) {
    s != "" && s[0] == '+'
  }

  ghost predicate IsPure(s: string) {
    && 5 <= |s| <= 20
    && (forall i :: 0 <= i < |s| ==> LegalAt(s, i))
    && BalancedUpTo(s, |s|)
    && Count(s, IsOpen) == Count(s, IsClose)
    && Count(s, IsDigit) >= (if StartsWithPlus(s) then 8 else 5)
  }

  lemma CountNothing()
    ensures forall p :: Count("", p) == 0
  {
  }

  // ---------- the scan ----------

  method IsPurePhoneNumber(s: string) returns (r: bool)
    ensures r <==> IsPure(s)
  {
    hide Keep, BesideBracket, IsBesideBracket;
    if !IsValidLength(s) {
      return false;
    }
    CountNothing();
    var digitCount := 0;
    var hasLeadingPlus := false;
    var bracketBalance := 0;
    for i := 0 to |s|
      invariant digitCount == Count(s[..i], IsDigit)
      invariant hasLeadingPlus == StartsWithPlus(s[..i])
      invariant bracketBalance == Count(s[..i], IsOpen) - Count(s[..i], IsClose)
      invariant forall k :: 0 <= k < i ==> LegalAt(s, k)
      invariant BalancedUpTo(s, i)
    {
      var c := s[i];
      if i > 0 {
        BesideBracketTest(s[i - 1]);
      }
      if i < |s| - 1 {
        BesideBracketTest(s[i + 1]);
      }
      KeepNext(s, IsDigit, i);
      KeepNext(s, IsOpen, i);
      KeepNext(s, IsClose, i);
      if IsDigit(c) {
        digitCount := digitCount + 1;
        continue;
      }
      if c == '+' {
        if i != 0 || hasLeadingPlus {
          assert !LegalAt(s, i);
          return false;
        }
        hasLeadingPlus := true;
        continue;
      }
      if c == '-' || c == ' ' {
        continue;
      }
      if c == '(' {
        bracketBalance := bracketBalance + 1;
        if !IsValidCharBeforeOpenBracket(s, i) {
          assert !LegalAt(s, i);
          return false;
        }
        continue;
      }
      if c == ')' {
        bracketBalance := bracketBalance - 1;
        if !IsValidCharAfterCloseBracket(s, i) {
          assert !LegalAt(s, i);
          return false;
        }
        if bracketBalance < 0 {
          assert Count(s[..i + 1], IsClose) > Count(s[..i + 1], IsOpen);
          return false;
        }
        continue;
      }
      assert !LegalAt(s, i);
      return false;
    }
    assert s[..|s|] == s;
    if bracketBalance != 0 {
      return false;
    }
    r := HasMinDigits(digitCount, hasLeadingPlus);
  }
}
