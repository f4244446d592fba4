/** The text of a challenge token: the random bytes in lower-case hexadecimal. */
module ChallengeTokenText {
  import opened TelephonyBase
  import opened ChallengeTokens

  const DIGITS := "0123456789abcdef"

  function HexByte(b: uint8): string {
    [DIGITS[b / 16], DIGITS[b % 16]]
  }

  function HexString(bytes: seq<uint8>): string {
    if bytes == [] then [] else HexString(bytes[..|bytes| - 1]) + HexByte(bytes[|bytes| - 1])
  }

  /** None stands for a random generator that fails; the token is then empty. */
  method GenerateToken(nonce: Option<seq<uint8>>) returns (token: string)
    requires nonce.Some? ==> |nonce.value| == TOKEN_BYTES_LENGTH
    ensures token == if nonce.Some? then HexString(nonce.value) else ""
  {
    token := "";
    if nonce.None? {
      return;
    }
    for i := 0 to TOKEN_BYTES_LENGTH
      invariant token == HexString(nonce.value[..i])
    {
      assert nonce.value[..i + 1][..i] == nonce.value[..i];
      token := token + HexByte(nonce.value[i]);
    }
    assert nonce.value[..TOKEN_BYTES_LENGTH] == nonce.value;
  }

  function DigitValue(c: char): int {
    if '0' <= c <= '9' then c as int - '0' as int else c as int - 'a' as int + 10
  }

  predicate IsHexDigit(c: char) {
    '0' <= c <= '9' || 'a' <= c <= 'f'
  }

  lemma DigitReadsBack(n: nat)
    requires n < 16
    ensures IsHexDigit(DIGITS[n]) && DigitValue(DIGITS[n]) == n
  {
  }

  /** Two lower-case hexadecimal digits for each byte, the more significant one first, give the byte back. */
  lemma {:induction false} HexReadsBack(bytes: seq<uint8>, k: nat)
    requires k < |bytes|
    ensures var s := HexString(bytes);
      && |s| == 2 * |bytes|
      && IsHexDigit(s[2 * k]) && IsHexDigit(s[2 * k + 1])
      && 16 * DigitValue(s[2 * k]) + DigitValue(s[2 * k + 1]) == bytes[k]
  {
    hide DigitValue, IsHexDigit;
    var front, last := bytes[..|bytes| - 1], bytes[|bytes| - 1];
    if front != [] {
      HexReadsBack(front, if k < |front| then k else 0);
    }
    DigitReadsBack(last / 16);
    DigitReadsBack(last % 16);
  }

  /** Different random bytes give different tokens. */
  lemma HexIsInjective(a: seq<uint8>, b: seq<uint8>)
    requires HexString(a) == HexString(b)
    ensures a == b
  {
    hide DigitValue;
    if a != [] {
      HexReadsBack(a, 0);
    }
    if b != [] {
      HexReadsBack(b, 0);
    }
    forall k | 0 <= k < |a|
      ensures a[k] == b[k]
    {
      HexReadsBack(a, k);
      HexReadsBack(b, k);
    }
  }
}
