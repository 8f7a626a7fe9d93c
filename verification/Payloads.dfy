/** Payload headers and the nonce search (kdapp/src/generator.rs). */
module Payloads {
  import opened Wrappers
  import opened Primitives
  import opened LittleEndian

  type Prefix = U32

  /** Bit positions and the values wanted there; the source fixes ten of them. */
  type Pattern = seq<(Byte, Byte)>

  function Bit(word: Byte, k: nat): Byte {
    if k == 0 then word % 2 else Bit(word / 2, k - 1)
  }

  predicate BitMatches(id: Hash, want: (Byte, Byte)) {
    Bit(id.bytes[want.0 / 8], want.0 % 8) == want.1
  }

  predicate Matches(id: Hash, pattern: Pattern) {
    pattern != [] ==> BitMatches(id, pattern[0]) && Matches(id, pattern[1..])
  }

  const POWERS: seq<Byte> := [1, 2, 4, 8, 16, 32, 64, 128]

  /** Bit `pos` of an id: the bytes in order, each from its lowest bit up. */
  function BitAt(id: Hash, pos: Byte): nat {
    id.bytes[pos / 8] / POWERS[pos % 8] % 2
  }

  lemma {:induction false} BitIs(word: Byte, k: nat)
    requires k < 8
    ensures Bit(word, k) == word / POWERS[k] % 2
    decreases k
  {
    if k > 0 {
      BitIs(word / 2, k - 1);
      Halved(word, k);
    }
  }

  lemma Halved(word: Byte, k: nat)
    requires 0 < k < 8
    ensures word / 2 / POWERS[k - 1] == word / POWERS[k]
  {
    var powers: seq<int> := POWERS;
    assert powers[k] == 2 * powers[k - 1];
    assert word / 2 / 1 == word / 2 && word / 2 / 2 == word / 4 && word / 2 / 4 == word / 8;
    assert word / 2 / 8 == word / 16 && word / 2 / 16 == word / 32;
    assert word / 2 / 32 == word / 64 && word / 2 / 64 == word / 128;
  }

  /** Matching a pattern means that every listed bit has its listed value. */
  lemma {:induction false} MatchesEveryBit(id: Hash, pattern: Pattern)
    ensures Matches(id, pattern) <==> forall i :: 0 <= i < |pattern| ==> BitAt(id, pattern[i].0) == pattern[i].1
  {
    if pattern != [] {
      MatchesEveryBit(id, pattern[1..]);
      BitIs(id.bytes[pattern[0].0 / 8], pattern[0].0 % 8);
      assert forall i :: 1 <= i < |pattern| ==> pattern[i] == pattern[1..][i - 1];
    }
  }

  method CheckPattern(id: Hash, pattern: Pattern) returns (ok: bool)
    ensures ok <==> Matches(id, pattern)
  {
    var i := 0;
    assert pattern[0..] == pattern;
    while i < |pattern|
      invariant 0 <= i <= |pattern|
      invariant Matches(id, pattern[i..]) <==> Matches(id, pattern)
    {
      var (pos, val) := pattern[i];
      var word := id.bytes[pos / 8];
      assert pattern[i..][0] == pattern[i] && pattern[i..][1..] == pattern[i + 1..];
      if Bit(word, pos % 8) != val {
        return false;
      }
      i := i + 1;
    }
    return true;
  }

  const HEADER_LENGTH: nat := 8

  function PackHeader(inner: seq<Byte>, prefix: Prefix): seq<Byte> {
    ToLE(prefix, 4) + ToLE(0, 4) + inner
  }

  predicate CheckHeader(payload: seq<Byte>, prefix: Prefix) {
    |payload| >= HEADER_LENGTH && payload[..4] == ToLE(prefix, 4)
  }

  function WithNonce(payload: seq<Byte>, nonce: U32): seq<Byte>
    requires |payload| >= HEADER_LENGTH
  {
    payload[..4] + ToLE(nonce, 4) + payload[8..]
  }

  function StripHeader(payload: seq<Byte>): seq<Byte>
    requires |payload| >= HEADER_LENGTH
  {
    payload[HEADER_LENGTH..]
  }

  /** The header of a payload names a prefix: eight bytes at least, of which the first four are the
      prefix, lowest byte first. */
  predicate Names(payload: seq<Byte>, prefix: Prefix) {
    |payload| >= 8 && FourAt(payload, 0) == prefix
  }

  lemma HeaderNames(payload: seq<Byte>, prefix: Prefix)
    ensures CheckHeader(payload, prefix) <==> Names(payload, prefix)
  {
    if |payload| >= 8 {
      WriteFour(payload[..4], prefix);
    }
  }

  /** A packed payload under a nonce: the prefix, the nonce, lowest byte first, and the inner bytes. */
  lemma CandidateBytes(inner: seq<Byte>, prefix: Prefix, nonce: U32)
    ensures
      var payload := Candidate(inner, prefix, nonce);
      |payload| >= 8 && FourAt(payload, 0) == prefix && FourAt(payload, 4) == nonce && payload[8..] == inner
  {
    var payload := Candidate(inner, prefix, nonce);
    assert payload[..4] == ToLE(prefix, 4) && payload[4..8] == ToLE(nonce, 4);
    WriteFour(payload[..4], prefix);
    WriteFour(payload[4..8], nonce);
  }

  lemma PrefixInjective(p: Prefix, q: Prefix)
    ensures ToLE(p, 4) == ToLE(q, 4) <==> p == q
  {
    Ranges();
    LERoundTrip(p, 4);
    LERoundTrip(q, 4);
  }

  /** A payload carries at most one prefix. */
  lemma OnePrefix(payload: seq<Byte>, p: Prefix, q: Prefix)
    requires CheckHeader(payload, p) && CheckHeader(payload, q)
    ensures p == q
  {
    PrefixInjective(p, q);
  }

  function WithNonces(payload: seq<Byte>, nonces: seq<U32>): (r: seq<Byte>)
    requires |payload| >= HEADER_LENGTH
    ensures |r| == |payload|
  {
    if nonces == [] then payload else WithNonce(WithNonces(payload, nonces[..|nonces| - 1]), nonces[|nonces| - 1])
  }

  /** However often the nonce is rewritten, the header names the packing prefix and no other, and
      stripping it gives back the packed bytes. */
  lemma {:induction false} PayloadRoundTrip(inner: seq<Byte>, prefix: Prefix, nonces: seq<U32>, other: Prefix)
    ensures
      var payload := WithNonces(PackHeader(inner, prefix), nonces);
      && |payload| >= HEADER_LENGTH
      && (CheckHeader(payload, other) <==> other == prefix)
      && StripHeader(payload) == inner
    decreases |nonces|
  {
    PrefixInjective(prefix, other);
    if nonces == [] {
      assert PackHeader(inner, prefix)[..4] == ToLE(prefix, 4);
      assert StripHeader(PackHeader(inner, prefix)) == inner;
    } else {
      var before := WithNonces(PackHeader(inner, prefix), nonces[..|nonces| - 1]);
      PayloadRoundTrip(inner, prefix, nonces[..|nonces| - 1], other);
      var payload := WithNonce(before, nonces[|nonces| - 1]);
      assert payload[..4] == before[..4];
      assert payload[8..] == before[8..];
    }
  }

  /** The nonce lies in the fifth to the eighth byte, lowest first, and nothing else changes. */
  lemma NonceBytes(payload: seq<Byte>, nonce: U32)
    requires |payload| >= 8
    ensures
      var payload' := WithNonce(payload, nonce);
      && |payload'| == |payload| && FourAt(payload', 4) == nonce
      && payload'[..4] == payload[..4] && payload'[8..] == payload[8..]
  {
    WriteFour(WithNonce(payload, nonce)[4..8], nonce);
    assert WithNonce(payload, nonce)[4..8] == ToLE(nonce, 4);
  }

  /** Rewrites four bytes of a payload in place. */
  method SetNonce(data: array<Byte>, nonce: U32)
    requires data.Length >= HEADER_LENGTH
    modifies data
    ensures data[..] == WithNonce(old(data[..]), nonce)
  {
    var bytes := ToLE(nonce, 4);
    for i := 0 to 4
      invariant data[..] == old(data[..4]) + bytes[..i] + old(data[4 + i..])
    {
      data[4 + i] := bytes[i];
    }
  }

  const LAST_NONCE: nat := 0xFFFF_FFFF

  /** What a search that starts at nonce 0 tries: the packed payload with every nonce in turn. */
  function Candidate(inner: seq<Byte>, prefix: Prefix, nonce: U32): seq<Byte> {
    WithNonce(PackHeader(inner, prefix), nonce)
  }

  lemma CandidateZero(inner: seq<Byte>, prefix: Prefix)
    ensures Candidate(inner, prefix, 0) == PackHeader(inner, prefix)
  {
  }

  lemma CandidateAgain(inner: seq<Byte>, prefix: Prefix, nonce: U32, nonce': U32)
    ensures WithNonce(Candidate(inner, prefix, nonce), nonce') == Candidate(inner, prefix, nonce')
  {
  }

  /** The nonce loop. `idOf` is the transaction id as a function of the payload. The search returns
      the payload of the first nonce whose id matches; running out of nonces is the source's panic. */
  method SearchNonce(inner: seq<Byte>, prefix: Prefix, pattern: Pattern, idOf: seq<Byte> -> Hash)
    returns (found: Option<seq<Byte>>, ghost nonce: U32)
    ensures found.Some? ==> found.value == Candidate(inner, prefix, nonce) && Matches(idOf(found.value), pattern)
    ensures found.Some? ==> forall n: U32 :: n < nonce ==> !Matches(idOf(Candidate(inner, prefix, n)), pattern)
    ensures found.None? ==> forall n: U32 :: !Matches(idOf(Candidate(inner, prefix, n)), pattern)
  {
    var packed := PackHeader(inner, prefix);
    var payload := new Byte[|packed|](i requires 0 <= i < |packed| => packed[i]);
    assert payload[..] == packed;
    CandidateZero(inner, prefix);
    var current: U32 := 0;
    while true
      invariant payload[..] == Candidate(inner, prefix, current)
      invariant forall n: U32 :: n < current ==> !Matches(idOf(Candidate(inner, prefix, n)), pattern)
      decreases LAST_NONCE - current
    {
      var matches := CheckPattern(idOf(payload[..]), pattern);
      if matches {
        return Some(payload[..]), current;
      }
      if current == LAST_NONCE {
        return None, current;
      }
      CandidateAgain(inner, prefix, current, current + 1);
      current := current + 1;
      SetNonce(payload, current);
    }
  }
}
