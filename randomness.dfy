/** The two random strings the client generates. The random source is not part
    of the model: the positions it would draw, and the shuffled digit string,
    are taken as inputs. */
module Randomness {
  import opened Values

  /** ASCII letters followed by digits, as `string.ascii_letters + string.digits`. */
  const Alphabet := "abcdefghijklmnopqrstuvwxyzABCDEFGHIJKLMNOPQRSTUVWXYZ0123456789"

  /** nonce_str: `length` characters, the i-th one being the alphabet entry at
      the i-th drawn position. */
  method NonceStr(length: nat, draws: seq<nat>) returns (s: string)
    requires |draws| == length
    requires forall i :: 0 <= i < |draws| ==> draws[i] < |Alphabet|
    ensures |s| == length
    ensures forall i :: 0 <= i < length ==> s[i] == Alphabet[draws[i]]
    ensures forall i :: 0 <= i < length ==> s[i] in Alphabet
  {
    s := "";
    var i := 0;
    while i < length
      invariant 0 <= i <= length
      invariant |s| == i
      invariant forall j :: 0 <= j < i ==> s[j] == Alphabet[draws[j]]
    {
      s := s + [Alphabet[draws[i]]];
      i := i + 1;
    }
  }

  /** A shuffle of the ten digits: each digit exactly once. */
  predicate Shuffle(d: string)
  {
    |d| == 10 && AllDigits(d) && forall i, j :: 0 <= i < j < |d| ==> d[i] != d[j]
  }

  /** random_num: the first `length` characters of a shuffle of the ten
      digits, so at most ten distinct digits. */
  function RandomNum(length: nat, shuffled: string): (r: string)
    requires Shuffle(shuffled)
    ensures |r| == if length < 10 then length else 10
    ensures AllDigits(r)
    ensures forall i, j :: 0 <= i < j < |r| ==> r[i] != r[j]
  {
    if length < |shuffled| then shuffled[..length] else shuffled
  }
}
