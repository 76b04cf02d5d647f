/**
 * Object keys: six characters drawn from a 36-symbol alphabet (Go's
 * `generateRandomID`, the Worker's `generateRandomId`), followed by an
 * extension. The random source is injected as the sequence of drawn indices.
 */
module Keys {

  const Chars: string := "abcdefghijklmnopqrstuvwxyz0123456789"
  const TokenLength: nat := 6

  predicate IsTokenChar(c: char) {
    'a' <= c <= 'z' || '0' <= c <= '9'
  }

  /** Six characters from `[a-z0-9]`. */
  predicate IsToken(s: string) {
    |s| == TokenLength && forall i | 0 <= i < |s| :: IsTokenChar(s[i])
  }

  /** Six draws, each an index into `Chars` as `rand.Intn(36)` or `Math.floor(Math.random() * 36)` gives. */
  predicate ValidDraws(draws: seq<nat>) {
    |draws| == TokenLength && forall i | 0 <= i < |draws| :: draws[i] < |Chars|
  }

  /** The position of a token character in `Chars`. */
  function CharIndex(c: char): nat
    requires IsTokenChar(c)
  {
    if 'a' <= c <= 'z' then (c as int) - ('a' as int) else (c as int) - ('0' as int) + 26
  }

  /** The alphabet is exactly the token characters, each once. */
  lemma CharsAt(k: nat)
    requires k < |Chars|
    ensures IsTokenChar(Chars[k]) && CharIndex(Chars[k]) == k
  {
  }

  /** The token the draws select. */
  function Token(draws: seq<nat>): (t: string)
    requires ValidDraws(draws)
    ensures IsToken(t)
  {
    var t := seq(TokenLength, i requires 0 <= i < TokenLength => Chars[draws[i]]);
    forall i | 0 <= i < TokenLength ensures IsTokenChar(t[i]) {
      CharsAt(draws[i]);
    }
    t
  }

  /** Different draws give different tokens: there are 36^6 tokens and no two draws share one. */
  lemma TokenInjective(a: seq<nat>, b: seq<nat>)
    requires ValidDraws(a) && ValidDraws(b)
    requires Token(a) == Token(b)
    ensures a == b
  {
    forall i | 0 <= i < TokenLength ensures a[i] == b[i] {
      assert Token(a)[i] == Token(b)[i];
      CharsAt(a[i]);
      CharsAt(b[i]);
    }
  }
}
