/**
 * The verification token. The source draws it with `randtoken.generate(48)`;
 * randomness is outside the model, so a token enters the operations as a
 * parameter that satisfies `IsToken`. The rand-token library, whose default
 * alphabet is the 26 lower-case letters, the 26 upper-case letters and the ten
 * digits, is not part of this model.
 */
module Token {

  const TokenLength: nat := 48

  predicate IsTokenChar(c: char) {
    'a' <= c <= 'z' || 'A' <= c <= 'Z' || '0' <= c <= '9'
  }

  predicate IsToken(t: string) {
    |t| == TokenLength && forall i :: 0 <= i < |t| ==> IsTokenChar(t[i])
  }

  /** A token has no dollar sign, so it is never special as a replacement string. */
  lemma TokenHasNoDollar(t: string)
    requires IsToken(t)
    ensures '$' !in t
  {
  }
}
