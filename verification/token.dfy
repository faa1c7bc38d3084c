/** Verification and reset tokens: their alphabet, their generation, and their place in links. */
module Token {
  import opened Results
  import opened Text
  import opened Messages

  /** The characters with codes `lo` through `hi`, in order. */
  function CharRange(lo: nat, hi: nat): (r: string)
    requires hi < 128
    ensures |r| == if lo <= hi then hi - lo + 1 else 0
    ensures forall i :: 0 <= i < |r| ==> r[i] as int == lo + i
    decreases hi + 1 - lo
  {
    if lo > hi then [] else [lo as char] + CharRange(lo + 1, hi)
  }

  /** ASCII letters then digits, the alphabet tokens are drawn from. */
  const Alphabet: string := CharRange('a' as nat, 'z' as nat) + CharRange('A' as nat, 'Z' as nat)
                            + CharRange('0' as nat, '9' as nat)

  const DefaultTokenLength := 32

  /** Reference definition of the token alphabet: an ASCII letter or digit. */
  predicate IsTokenChar(c: char) {
    IsLower(c) || IsUpper(c) || IsDigit(c)
  }

  /** The alphabet has 62 characters, and they are exactly the ASCII letters and digits. */
  lemma AlphabetIsAlphanumeric()
    ensures |Alphabet| == 62
    ensures forall c :: c in Alphabet <==> IsTokenChar(c)
  {
    var lower := CharRange('a' as nat, 'z' as nat);
    var upper := CharRange('A' as nat, 'Z' as nat);
    var digits := CharRange('0' as nat, '9' as nat);
    forall c | IsTokenChar(c)
      ensures c in Alphabet
    {
      if 'a' <= c <= 'z' {
        assert lower[c as int - 'a' as int] == c;
      } else if 'A' <= c <= 'Z' {
        assert upper[c as int - 'A' as int] == c;
        assert Alphabet[26 + c as int - 'A' as int] == c;
      } else {
        assert digits[c as int - '0' as int] == c;
        assert Alphabet[52 + c as int - '0' as int] == c;
      }
    }
  }

  /**
   * `generate_token(length)`: `length` characters (32 by default), each chosen from the alphabet.
   * The choice is left open; a negative length gives the empty token, as
   * `range` does.
   */
  method GenerateToken(length: int := DefaultTokenLength) returns (token: string)
    ensures |token| == if length < 0 then 0 else length
    ensures forall i :: 0 <= i < |token| ==> IsTokenChar(token[i])
  {
    AlphabetIsAlphanumeric();
    assert Alphabet[0] in Alphabet;
    token := "";
    var n := 0;
    while n < length
      invariant n == |token|
      invariant n <= if length < 0 then 0 else length
      invariant forall i :: 0 <= i < |token| ==> IsTokenChar(token[i])
    {
      var c :| c in Alphabet;
      token := token + [c];
      n := n + 1;
    }
  }

  /** A generated token needs no escaping in a link: the link reads back as its base and the token. */
  lemma TokenLinkSplits(base: string, token: string)
    requires forall i :: 0 <= i < |token| ==> IsTokenChar(token[i])
    ensures SplitLink(Link(base, token)) == Some((base, token))
  {
    LinkSplits(base, token);
  }
}
