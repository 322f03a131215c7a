/** Referral codes: eight characters drawn from ascii_letters + digits. The random draws are
    an input, given as positions in that 62-symbol alphabet. */
module ReferralCode {

  const CodeLength: nat := 8
  const AlphabetSize: nat := 62

  predicate IsAsciiAlphanumeric(c: char)
  {
    'a' <= c <= 'z' || 'A' <= c <= 'Z' || '0' <= c <= '9'
  }

  /** A well-formed referral code: exactly eight ASCII letters or digits. */
  predicate IsReferralCode(code: string)
  {
    |code| == CodeLength && forall i :: 0 <= i < |code| ==> IsAsciiAlphanumeric(code[i])
  }

  /** The k-th character of ascii_letters + digits: a-z, then A-Z, then 0-9. */
  function Symbol(k: nat): (c: char)
    requires k < AlphabetSize
    ensures IsAsciiAlphanumeric(c)
  {
    if k < 26 then ('a' as int + k) as char
    else if k < 52 then ('A' as int + (k - 26)) as char
    else ('0' as int + (k - 52)) as char
  }

  /** The position of an ASCII letter or digit in ascii_letters + digits. */
  function SymbolIndex(c: char): (k: nat)
    requires IsAsciiAlphanumeric(c)
    ensures k < AlphabetSize && Symbol(k) == c
  {
    if 'a' <= c <= 'z' then c as int - 'a' as int
    else if 'A' <= c <= 'Z' then c as int - 'A' as int + 26
    else c as int - '0' as int + 52
  }

  /** One outcome of `random.choices(alphabet, k=8)`: eight positions in the alphabet. */
  predicate ValidDraws(draws: seq<nat>)
  {
    |draws| == CodeLength && forall i :: 0 <= i < |draws| ==> draws[i] < AlphabetSize
  }

  /** generate_referral_code, with the eight random draws as input. */
  function Generate(draws: seq<nat>): (code: string)
    requires ValidDraws(draws)
    ensures IsReferralCode(code)
  {
    seq(CodeLength, i requires 0 <= i < CodeLength => Symbol(draws[i]))
  }

  /** The draws that produce a given code. */
  function Draws(code: string): (draws: seq<nat>)
    requires IsReferralCode(code)
    ensures ValidDraws(draws)
  {
    seq(CodeLength, i requires 0 <= i < CodeLength => SymbolIndex(code[i]))
  }

  /** Distinct draws give distinct codes: every one of the 62^8 outcomes is its own code. */
  lemma {:induction false} DrawsOfGenerate(draws: seq<nat>)
    requires ValidDraws(draws)
    ensures Draws(Generate(draws)) == draws
  {
    var code := Generate(draws);
    forall i | 0 <= i < CodeLength
      ensures Draws(code)[i] == draws[i]
    {
      SymbolRoundTrip(draws[i]);
    }
  }

  /** Every well-formed code can be generated. */
  lemma {:induction false} GenerateOfDraws(code: string)
    requires IsReferralCode(code)
    ensures Generate(Draws(code)) == code
  {
  }

  lemma SymbolRoundTrip(k: nat)
    requires k < AlphabetSize
    ensures SymbolIndex(Symbol(k)) == k
  {
  }
}
