/** Selecting and counting the characters of a text. */
module PhoneText {

  predicate IsDigit(c: char) {
    '0' <= c <= '9'
  }

  lemma TheDigits(c: char)
    ensures IsDigit(c) <==> c in "0123456789"
  {
    if IsDigit(c) {
      assert c == "0123456789"[c as int - '0' as int];
    }
  }

  /** The characters of s that satisfy p, in order. */
  function Keep(s: string, p: char -> bool): string {
    if s == [] then []
    else
      var front, last := Keep(s[..|s| - 1], p), s[|s| - 1];
      if p(last) then front + [last] else front
  }

  function Count(s: string, p: char -> bool): nat {
    |Keep(s, p)|
  }

  lemma KeepNext(s: string, p: char -> bool, i: nat)
    requires i < |s|
    ensures Keep(s[..i + 1], p) == if p(s[i]) then Keep(s[..i], p) + [s[i]] else Keep(s[..i], p)
  {
    assert s[..i + 1][..i] == s[..i];
  }

  lemma {:induction false} KeepConcat(a: string, b: string, p: char -> bool)
    ensures Keep(a + b, p) == Keep(a, p) + Keep(b, p)
  {
    if b == [] {
      assert a + b == a;
    } else {
      assert (a + b)[..|a + b| - 1] == a + b[..|b| - 1];
      KeepConcat(a, b[..|b| - 1], p);
    }
  }

  lemma {:induction false} KeepAll(s: string, p: char -> bool)
    requires forall k :: 0 <= k < |s| ==> p(s[k])
    ensures Keep(s, p) == s
  {
    if s != [] {
      KeepAll(s[..|s| - 1], p);
    }
  }

  lemma {:induction false} KeepNone(s: string, p: char -> bool)
    requires forall k :: 0 <= k < |s| ==> !p(s[k])
    ensures Keep(s, p) == []
  {
    if s != [] {
      KeepNone(s[..|s| - 1], p);
    }
  }

  lemma {:induction false} KeepSatisfies(s: string, p: char -> bool)
    ensures forall k :: 0 <= k < |Keep(s, p)| ==> p(Keep(s, p)[k]) && Keep(s, p)[k] in s
    ensures |Keep(s, p)| <= |s|
  {
    if s != [] {
      KeepSatisfies(s[..|s| - 1], p);
      assert forall c :: c in s[..|s| - 1] ==> c in s;
    }
  }

  lemma {:induction false} KeepSame(s: string, p: char -> bool, q: char -> bool)
    requires forall k :: 0 <= k < |s| ==> p(s[k]) == q(s[k])
    ensures Keep(s, p) == Keep(s, q)
  {
    if s != [] {
      KeepSame(s[..|s| - 1], p, q);
    }
  }
}
