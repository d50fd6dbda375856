/**
 * Decimal rendering of user identifiers. The session store key for a user is the
 * text `refresh_token:` followed by the identifier, so two users can only share a
 * key if their renderings coincide; this module proves that they never do.
 */
module DecimalText {
  function DigitChar(d: nat): (c: char)
    requires d < 10
    ensures '0' <= c <= '9'
    ensures c as int - '0' as int == d
  {
    ('0' as int + d) as char
  }

  /** The shortest decimal numeral of `n`, most significant digit first. */
  function Text(n: nat): (s: string)
    ensures 1 <= |s|
    ensures n < 10 <==> |s| == 1
    ensures forall i :: 0 <= i < |s| ==> '0' <= s[i] <= '9'
    decreases n
  {
    if n < 10 then [DigitChar(n)] else Text(n / 10) + [DigitChar(n % 10)]
  }

  /** Distinct identifiers have distinct renderings. */
  lemma {:induction false} TextInjective(a: nat, b: nat)
    requires Text(a) == Text(b)
    ensures a == b
    decreases a
  {
    var s := Text(a);
    if a < 10 {
      assert |Text(b)| == 1 && b < 10;
      assert s[0] == DigitChar(a) && Text(b)[0] == DigitChar(b);
    } else {
      assert b >= 10;
      assert Text(a / 10) == s[..|s| - 1];
      assert Text(b / 10) == Text(b)[..|Text(b)| - 1];
      TextInjective(a / 10, b / 10);
      assert DigitChar(a % 10) == s[|s| - 1] == DigitChar(b % 10);
    }
  }
}
