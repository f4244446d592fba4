/** Cleaning, normalising and comparing phone numbers. */
module CallNumberUtils {
  import opened TelephonyBase
  import opened PhoneText
  import opened PurePhoneNumbers

  // ---------- separators and post-dial strings ----------

  predicate IsDialable(c: char) {
    IsDigit(c) || c == '*' || c == '#' || c == '+' || c == 'N'
  }

  predicate IsPause(c: char) {
    c == ',' || c == ';'
  }

  predicate IsSent(c: char) {
    IsDialable(c) || IsPause(c)
  }

  function WithoutSeparators(s: string): string {
    Keep(s, IsSent)
  }

  // The length of the text in front of the first pause.
  function PauseAt(s: string): (n: nat)
    ensures n <= |s| && (n < |s| ==> IsPause(s[n]))
    ensures forall k :: 0 <= k < n ==> !IsPause(s[k])
  {
    if s == [] || IsPause(s[0]) then 0 else 1 + PauseAt(s[1..])
  }

  function WithoutPostDial(s: string): string {
    Keep(s[..PauseAt(s)], IsDialable)
  }

  // r is what is kept of the text in front of position n, where its first comma or semicolon is, if it has any.
  ghost predicate CutAt(s: string, n: nat, r: string) {
    && n <= |s|
    && (n < |s| ==> s[n] == ',' || s[n] == ';')
    && (forall k :: 0 <= k < n ==> s[k] != ',' && s[k] != ';')
    && r == Keep(s[..n], c => c in "0123456789*#+N")
  }

  // Which characters are kept, spelled out.
  lemma Dialables(s: string)
    ensures Keep(s, IsSent) == Keep(s, c => c in "0123456789*#+N,;")
    ensures Keep(s, IsDialable) == Keep(s, c => c in "0123456789*#+N")
  {
    forall c: char
      ensures IsDialable(c) <==> c in "0123456789*#+N"
      ensures IsSent(c) <==> c in "0123456789*#+N,;"
    {
      TheDigits(c);
      assert "0123456789*#+N" == "0123456789" + "*#+N" && "0123456789*#+N,;" == "0123456789*#+N" + ",;";
    }
    KeepSame(s, IsSent, c => c in "0123456789*#+N,;");
    KeepSame(s, IsDialable, c => c in "0123456789*#+N");
  }

  method RemoveSeparatorsPhoneNumber(phoneString: string) returns (newString: string)
    ensures newString == WithoutSeparators(phoneString)
    ensures newString == Keep(phoneString, c => c in "0123456789*#+N,;")
  {
    Dialables(phoneString);
    newString := "";
    if phoneString == "" {
      return;
    }
    for i := 0 to |phoneString|
      invariant newString == Keep(phoneString[..i], IsSent)
    {
      KeepNext(phoneString, IsSent, i);
      var c := phoneString[i];
      if ('0' <= c <= '9') || c == '*' || c == '#' || c == '+' || c == 'N' || c == ',' || c == ';' {
        newString := newString + [c];
      }
    }
    assert phoneString[..|phoneString|] == phoneString;
  }

  method RemovePostDialPhoneNumber(phoneString: string) returns (newString: string)
    ensures newString == WithoutPostDial(phoneString)
    ensures exists n: nat :: CutAt(phoneString, n, newString)
  {
    Dialables(phoneString[..PauseAt(phoneString)]);
    assert CutAt(phoneString, PauseAt(phoneString), WithoutPostDial(phoneString));
    newString := "";
    if phoneString == "" {
      return;
    }
    var i := 0;
    while i < |phoneString|
      invariant i <= PauseAt(phoneString)
      invariant newString == Keep(phoneString[..i], IsDialable)
    {
      KeepNext(phoneString, IsDialable, i);
      var c := phoneString[i];
      if ('0' <= c <= '9') || c == '*' || c == '#' || c == '+' || c == 'N' {
        newString := newString + [c];
      } else if c == ',' || c == ';' {
        break;
      }
      i := i + 1;
    }
  }

  /** Dropping separators distributes over concatenation, and doing it twice changes nothing. */
  lemma SeparatorsLaws(a: string, b: string)
    ensures WithoutSeparators(a + b) == WithoutSeparators(a) + WithoutSeparators(b)
    ensures WithoutSeparators(WithoutSeparators(a)) == WithoutSeparators(a)
  {
    KeepConcat(a, b, IsSent);
    KeepSatisfies(a, IsSent);
    KeepAll(WithoutSeparators(a), IsSent);
  }

  lemma PauseUnique(s: string, n: nat)
    requires n <= |s| && (n < |s| ==> IsPause(s[n])) && forall k :: 0 <= k < n ==> !IsPause(s[k])
    ensures PauseAt(s) == n
  {
  }

  // Dropping separators moves the first pause to where the text in front of it, without separators, ends.
  lemma PauseMoves(s: string)
    ensures WithoutSeparators(s)[..PauseAt(WithoutSeparators(s))] == WithoutPostDial(s)
  {
    var n := PauseAt(s);
    var head := s[..n];
    KeepSame(head, IsSent, IsDialable);
    KeepSatisfies(head, IsSent);
    assert forall k :: 0 <= k < |Keep(head, IsSent)| ==> !IsPause(Keep(head, IsSent)[k]);
    if n == |s| {
      assert head == s;
      PauseUnique(WithoutSeparators(s), |WithoutSeparators(s)|);
    } else {
      assert s == head + [s[n]] + s[n + 1..];
      KeepConcat(head + [s[n]], s[n + 1..], IsSent);
      KeepConcat(head, [s[n]], IsSent);
      assert [s[n]][..0] == [];
      assert Keep([s[n]], IsSent) == [s[n]];
      var kept := WithoutSeparators(s);
      assert kept == Keep(head, IsSent) + [s[n]] + Keep(s[n + 1..], IsSent);
      assert kept[|Keep(head, IsSent)|] == s[n];
      assert forall k :: 0 <= k < |Keep(head, IsSent)| ==> kept[k] == Keep(head, IsSent)[k];
      PauseUnique(kept, |Keep(head, IsSent)|);
    }
  }

  /** Removing the post-dial string is removing the separators and cutting in front of the first pause. */
  lemma PostDialIsCut(s: string)
    ensures var clean := WithoutSeparators(s);
      WithoutPostDial(s) == clean[..PauseAt(clean)]
  {
    PauseMoves(s);
  }

  lemma NoPauseInPostDial(s: string)
    ensures forall k :: 0 <= k < |WithoutPostDial(s)| ==> IsDialable(WithoutPostDial(s)[k])
  {
    KeepSatisfies(s[..PauseAt(s)], IsDialable);
  }

  /** The two removals can be done in either order, and the second removal of a kind changes nothing. */
  lemma RemovalsCommute(s: string)
    ensures WithoutPostDial(WithoutSeparators(s)) == WithoutPostDial(s)
    ensures WithoutSeparators(WithoutPostDial(s)) == WithoutPostDial(s)
    ensures WithoutPostDial(WithoutPostDial(s)) == WithoutPostDial(s)
  {
    var clean, post := WithoutSeparators(s), WithoutPostDial(s);
    SeparatorsLaws(s, "");
    PauseMoves(s);
    PauseMoves(clean);
    NoPauseInPostDial(s);
    KeepAll(post, IsSent);
    KeepAll(post, IsDialable);
    PauseUnique(post, |post|);
    assert post[..|post|] == post;
  }

  // ---------- letters and spaces ----------

  method HasAlphabetInPhoneNum(inputValue: string) returns (r: bool)
    ensures r <==> inputValue == "" || exists c :: c in inputValue && ('a' <= c <= 'z' || 'A' <= c <= 'Z')
  {
    if inputValue == "" {
      return true;
    }
    for i := 0 to |inputValue|
      invariant forall c :: c in inputValue[..i] ==> !('a' <= c <= 'z' || 'A' <= c <= 'Z')
    {
      var c := inputValue[i];
      assert inputValue[..i + 1] == inputValue[..i] + [c] && c in inputValue;
      if ('a' <= c <= 'z') || ('A' <= c <= 'Z') {
        return true;
      }
    }
    assert inputValue[..|inputValue|] == inputValue;
    return false;
  }

  predicate IsSpace(c: char) {
    c == ' ' || ('\t' <= c <= '\r')
  }


  predicate NotSpace(c: char) {
    !IsSpace(c)
  }

  // White space is space, tab, line feed, vertical tab, form feed and carriage return.
  lemma Spaces(s: string)
    ensures Keep(s, NotSpace) == Keep(s, c => c as int !in {32, 9, 10, 11, 12, 13})
  {
    KeepSame(s, NotSpace, c => c as int !in {32, 9, 10, 11, 12, 13});
  }

  /** Joins the words of a text, as a stream extracts them. */
  method ProcessSpace(number: string) returns (store: string)
    ensures store == Keep(number, NotSpace)
    ensures store == Keep(number, c => c as int !in {32, 9, 10, 11, 12, 13})
  {
    store := "";
    var i := 0;
    while i < |number|
      invariant i <= |number|
      invariant store == Keep(number[..i], NotSpace)
    {
      while i < |number| && IsSpace(number[i])
        invariant i <= |number|
        invariant store == Keep(number[..i], NotSpace)
      {
        KeepNext(number, NotSpace, i);
        i := i + 1;
      }
      var word := "";
      while i < |number| && !IsSpace(number[i])
        invariant i <= |number|
        invariant store + word == Keep(number[..i], NotSpace)
      {
        KeepNext(number, NotSpace, i);
        word := word + [number[i]];
        i := i + 1;
      }
      store := store + word;
    }
    assert number[..|number|] == number;
    Spaces(number);
  }

  // ---------- cleaning an accepted number ----------

  lemma {:induction false} PlusOnlyInFront(s: string)
    requires forall i :: 0 <= i < |s| ==> LegalAt(s, i)
    ensures WithoutSeparators(s) == (if StartsWithPlus(s) then "+" else "") + Keep(s, IsDigit)
  {
    var head := if StartsWithPlus(s) then "+" else "";
    var rest := s[|head|..];
    assert s == head + rest;
    KeepConcat(head, rest, IsSent);
    KeepConcat(head, rest, IsDigit);
    forall k | 0 <= k < |rest|
      ensures IsSent(rest[k]) == IsDigit(rest[k])
    {
      assert LegalAt(s, |head| + k);
    }
    KeepSame(rest, IsSent, IsDigit);
    if head != "" {
      assert head[..0] == "";
    }
  }

  /**
   Cleaning an accepted number gives an optional plus and then exactly its digits; it does not matter which of
   the two cleanings is used; no letter is left; and the result is accepted again.
   */
  lemma CleaningAccepted(s: string)
    requires IsPure(s)
    ensures var clean := WithoutSeparators(s);
      && clean == (if StartsWithPlus(s) then "+" else "") + Keep(s, IsDigit)
      && clean == WithoutPostDial(s)
      && (forall c :: c in clean ==> !('a' <= c <= 'z' || 'A' <= c <= 'Z'))
      && IsPure(clean)
  {
    var clean, digits := WithoutSeparators(s), Keep(s, IsDigit);
    PlusOnlyInFront(s);
    KeepSatisfies(s, IsSent);
    KeepSatisfies(s, IsDigit);
    hide Keep;
    assert forall k :: 0 <= k < |digits| ==> IsDigit(digits[k]);
    assert forall k :: 0 <= k < |clean| ==> clean[k] == '+' || IsDigit(clean[k]);
    PauseMoves(s);
    PauseUnique(clean, |clean|);
    assert clean[..|clean|] == clean;
    DigitsArePure(if StartsWithPlus(s) then "+" else "", digits);
  }

  lemma NoBrackets(clean: string)
    requires forall k :: 0 <= k < |clean| ==> clean[k] != '(' && clean[k] != ')'
    ensures BalancedUpTo(clean, |clean|) && Count(clean, IsOpen) == Count(clean, IsClose)
  {
    forall k | 0 <= k <= |clean|
      ensures Count(clean[..k], IsOpen) == 0 && Count(clean[..k], IsClose) == 0
    {
      KeepNone(clean[..k], IsOpen);
      KeepNone(clean[..k], IsClose);
    }
    assert clean[..|clean|] == clean;
  }

  // An optional plus and enough digits are an accepted number.
  lemma DigitsArePure(head: string, digits: string)
    requires head == "" || head == "+"
    requires forall k :: 0 <= k < |digits| ==> IsDigit(digits[k])
    requires (if head == "+" then MIN_DIGITS_WITH_PLUS else MIN_DIGITS) <= |digits| <= MAX_LENGTH - |head|
    ensures IsPure(head + digits)
  {
    hide Keep;
    var clean := head + digits;
    forall k | 0 <= k < |clean|
      ensures LegalAt(clean, k) && clean[k] != '(' && clean[k] != ')'
    {
      if k >= |head| {
        assert clean[k] == digits[k - |head|];
      }
    }
    NoBrackets(clean);
    KeepConcat(head, digits, IsDigit);
    KeepNone(head, IsDigit);
    KeepAll(digits, IsDigit);
    assert digits[0] != '+';
  }

  // ---------- the normal form ----------

  const PATTERN_LENGTH := 11

  // The regular expression "a one and ten digits" matches at position i.
  predicate MatchesAt(n: string, i: nat) {
    && i + PATTERN_LENGTH <= |n| && n[i] == '1'
    && forall k :: i < k < i + PATTERN_LENGTH ==> IsDigit(n[k])
  }

  // The leftmost match from position i on; None when there is none.
  function Search(n: string, i: nat): (r: Option<nat>)
    requires i <= |n|
    ensures r.Some? ==> i <= r.value && MatchesAt(n, r.value) && forall k :: i <= k < r.value ==> !MatchesAt(n, k)
    ensures r.None? ==> forall k :: i <= k ==> !MatchesAt(n, k)
    decreases |n| - i
  {
    if MatchesAt(n, i) then Some(i) else if i == |n| then None else Search(n, i + 1)
  }

  function NormalizePhoneNumber(number: string): string {
    var normalized := Keep(number, IsDigit);
    match Search(normalized, 0)
    case Some(i) => normalized[i..i + PATTERN_LENGTH]
    case None => ""
  }

  predicate IsSamePhoneNumber(localNumber: string, inputNumber: string) {
    var a, b := NormalizePhoneNumber(localNumber), NormalizePhoneNumber(inputNumber);
    a != "" && b != "" && a == b
  }

  function FirstOne(n: string): (i: nat)
    ensures i <= |n| && (i < |n| ==> n[i] == '1') && forall k :: 0 <= k < i ==> n[k] != '1'
  {
    if n == "" || n[0] == '1' then 0 else 1 + FirstOne(n[1..])
  }

  lemma SearchFindsFirstOne(digits: string)
    requires forall k :: 0 <= k < |digits| ==> IsDigit(digits[k])
    ensures var i := FirstOne(digits);
      Search(digits, 0) == if i + PATTERN_LENGTH <= |digits| then Some(i) else None
  {
    var i := FirstOne(digits);
    if i + PATTERN_LENGTH <= |digits| {
      assert MatchesAt(digits, i);
    } else {
      assert forall k: nat :: !MatchesAt(digits, k);
    }
  }

  /** The leftmost match is the eleven digits from the first one; later ones never help. */
  lemma NormalForm(number: string)
    ensures var digits := Keep(number, IsDigit);
      var i := FirstOne(digits);
      NormalizePhoneNumber(number) == if i + PATTERN_LENGTH <= |digits| then digits[i..i + PATTERN_LENGTH] else ""
  {
    hide Search, FirstOne, Keep;
    KeepSatisfies(number, IsDigit);
    SearchFindsFirstOne(Keep(number, IsDigit));
  }

  /** A normal form is its own normal form. */
  lemma NormalizeTwice(number: string)
    ensures NormalizePhoneNumber(NormalizePhoneNumber(number)) == NormalizePhoneNumber(number)
  {
    hide NormalizePhoneNumber, Keep;
    var normal := NormalizePhoneNumber(number);
    NormalForm(number);
    KeepSatisfies(number, IsDigit);
    KeepAll(normal, IsDigit);
    NormalForm(normal);
    if normal != "" {
      assert FirstOne(normal) == 0;
    }
  }

  /** Characters that are not digits do not matter, nor do digits other than one in front. */
  lemma NormalizeIgnores(prefix: string, a: string, noise: string, b: string)
    requires forall k :: 0 <= k < |noise| ==> !IsDigit(noise[k])
    requires forall k :: 0 <= k < |prefix| ==> prefix[k] != '1'
    ensures NormalizePhoneNumber(prefix + a + noise + b) == NormalizePhoneNumber(a + b)
  {
    hide NormalizePhoneNumber, Keep, FirstOne;
    var before, after := Keep(prefix, IsDigit), Keep(a + b, IsDigit);
    KeepAround(prefix, a, noise, b);
    KeepSatisfies(prefix, IsDigit);
    FirstOneShifts(before, after);
    NormalForm(prefix + a + noise + b);
    NormalForm(a + b);
    var i := FirstOne(after);
    if i + PATTERN_LENGTH <= |after| {
      assert (before + after)[|before| + i..|before| + i + PATTERN_LENGTH] == after[i..i + PATTERN_LENGTH];
    }
  }

  lemma KeepAround(prefix: string, a: string, noise: string, b: string)
    requires forall k :: 0 <= k < |noise| ==> !IsDigit(noise[k])
    ensures Keep(prefix + a + noise + b, IsDigit) == Keep(prefix, IsDigit) + Keep(a + b, IsDigit)
  {
    hide Keep;
    KeepConcat(prefix + a + noise, b, IsDigit);
    KeepConcat(prefix + a, noise, IsDigit);
    KeepConcat(prefix, a, IsDigit);
    KeepConcat(a, b, IsDigit);
    KeepNone(noise, IsDigit);
  }

  lemma FirstOneShifts(before: string, after: string)
    requires forall k :: 0 <= k < |before| ==> before[k] != '1'
    ensures FirstOne(before + after) == |before| + FirstOne(after)
  {
    var i := FirstOne(after);
    var both := before + after;
    assert forall k :: |before| <= k < |both| ==> both[k] == after[k - |before|];
    if i < |after| {
      assert both[|before| + i] == '1';
    }
  }

  /** Being the same number is symmetric and transitive, and reflexive where there is a normal form. */
  lemma SamenessLaws(a: string, b: string, c: string)
    ensures IsSamePhoneNumber(a, b) == IsSamePhoneNumber(b, a)
    ensures IsSamePhoneNumber(a, b) && IsSamePhoneNumber(b, c) ==> IsSamePhoneNumber(a, c)
    ensures IsSamePhoneNumber(a, a) <==>
      FirstOne(Keep(a, IsDigit)) + PATTERN_LENGTH <= |Keep(a, IsDigit)|
  {
    hide NormalizePhoneNumber, Keep;
    NormalForm(a);
  }

  /** Two texts have the same eleven digits from their first one on. */
  predicate SameElevenDigits(a: string, b: string) {
    var x, y := Keep(a, IsDigit), Keep(b, IsDigit);
    var i, j := FirstOne(x), FirstOne(y);
    i + 11 <= |x| && j + 11 <= |y| && x[i..i + 11] == y[j..j + 11]
  }

  /** That is what being the same number means. */
  lemma SamenessByDigits(a: string, b: string)
    ensures IsSamePhoneNumber(a, b) <==> SameElevenDigits(a, b)
  {
    hide NormalizePhoneNumber, Keep;
    NormalForm(a);
    NormalForm(b);
  }

  /** The slot whose own number is the given one: the first, when there are several. */
  method GetAccountIdByNumber(showNumbers: seq<string>, inputNumber: string, slotId: int32)
    returns (found: bool, newSlotId: int32)
    requires |showNumbers| < 0x8000_0000
    ensures found <==> exists i :: 0 <= i < |showNumbers| && SameElevenDigits(showNumbers[i], inputNumber)
    ensures found ==> 0 <= newSlotId < |showNumbers| && SameElevenDigits(showNumbers[newSlotId], inputNumber)
    ensures found ==> forall i :: 0 <= i < newSlotId ==> !SameElevenDigits(showNumbers[i], inputNumber)
    ensures !found ==> newSlotId == slotId
  {
    newSlotId := slotId;
    for i := 0 to |showNumbers|
      invariant newSlotId == slotId
      invariant forall k :: 0 <= k < i ==> !SameElevenDigits(showNumbers[k], inputNumber)
    {
      SamenessByDigits(showNumbers[i], inputNumber);
      if IsSamePhoneNumber(showNumbers[i], inputNumber) {
        return true, i;
      }
    }
    return false, newSlotId;
  }
}
