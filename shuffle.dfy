/** `shuffleString`: the characters are copied into an array and swapped in
    place, from the last index down to 1, each with a position drawn from
    `[0, i]`. */
module Shuffle {
  import opened Randomness

  function Swap(s: seq<char>, i: nat, j: nat): seq<char>
    requires i < |s| && j < |s|
  {
    s[i := s[j]][j := s[i]]
  }

  /** The swap loop run from index `i` down to 1 on `s`, with the draws
      from position `p` on; and the position after it. */
  function ShuffleFrom(s: seq<char>, i: int, d: Draws, p: nat): (r: (seq<char>, nat))
    requires i < |s|
    ensures r.1 == p + (if i > 0 then i else 0)
    decreases i
  {
    if i <= 0 then (s, p)
    else ShuffleFrom(Swap(s, i, ScaledIndex(d(p), i + 1)), i - 1, d, p + 1)
  }

  /** `shuffleString(s)` with the draws from position `p` on. */
  function Shuffled(s: string, d: Draws, p: nat): (string, nat) {
    ShuffleFrom(s, |s| - 1, d, p)
  }

  lemma SwapPermutes(s: seq<char>, i: nat, j: nat)
    requires i < |s| && j < |s|
    ensures |Swap(s, i, j)| == |s| && multiset(Swap(s, i, j)) == multiset(s)
  {
    var t := s[i := s[j]];
    assert multiset(t) == multiset(s) - multiset{s[i]} + multiset{s[j]};
    assert multiset(t[j := s[i]]) == multiset(t) - multiset{t[j]} + multiset{s[i]};
  }

  lemma {:induction false} ShuffleFromPermutes(s: seq<char>, i: int, d: Draws, p: nat)
    requires i < |s|
    ensures |ShuffleFrom(s, i, d, p).0| == |s|
    ensures multiset(ShuffleFrom(s, i, d, p).0) == multiset(s)
    decreases i
  {
    if i > 0 {
      var j := ScaledIndex(d(p), i + 1);
      SwapPermutes(s, i, j);
      ShuffleFromPermutes(Swap(s, i, j), i - 1, d, p + 1);
    }
  }

  /** The shuffle is a permutation: the same characters, as many times each,
      for every sequence of draws. */
  lemma ShuffledPermutes(s: string, d: Draws, p: nat)
    ensures |Shuffled(s, d, p).0| == |s|
    ensures multiset(Shuffled(s, d, p).0) == multiset(s)
    ensures forall c :: c in Shuffled(s, d, p).0 <==> c in s
  {
    ShuffleFromPermutes(s, |s| - 1, d, p);
    var r := Shuffled(s, d, p).0;
    forall c ensures c in r <==> c in s {
      assert c in r <==> c in multiset(r);
      assert c in s <==> c in multiset(s);
    }
  }

  lemma SwapStep(before: seq<char>, after: seq<char>, i: nat, j: nat)
    requires i < |before| && j < |before| && |after| == |before|
    requires after[i] == before[j] && after[j] == before[i]
    requires forall k :: 0 <= k < |before| && k != i && k != j ==> after[k] == before[k]
    ensures after == Swap(before, i, j)
  {
  }

  /** The swap loop of `shuffleString`, in place on `chars`. */
  method ShuffleInPlace(chars: array<char>, rng: RandomSource)
    modifies chars, rng
    ensures (chars[..], rng.pos) == Shuffled(old(chars[..]), rng.sample, old(rng.pos))
  {
    ghost var cur := chars[..];
    var i := chars.Length - 1;
    while i > 0
      invariant -1 <= i < chars.Length
      invariant chars[..] == cur
      invariant ShuffleFrom(cur, i, rng.sample, rng.pos) == Shuffled(old(chars[..]), rng.sample, old(rng.pos))
    {
      var x := rng.Next();
      var j := ScaledIndex(x, i + 1);
      chars[i], chars[j] := chars[j], chars[i];
      SwapStep(cur, chars[..], i, j);
      cur := Swap(cur, i, j);
      i := i - 1;
    }
  }

  /** `shuffleString`, drawing from `rng`: the characters go into a fresh
      array, are shuffled there, and are read back. */
  method ShuffleString(str: string, rng: RandomSource) returns (r: string)
    modifies rng
    ensures (r, rng.pos) == Shuffled(str, rng.sample, old(rng.pos))
    ensures |r| == |str| && multiset(r) == multiset(str)
  {
    var chars := new char[|str|](k requires 0 <= k < |str| => str[k]);
    assert chars[..] == str;
    ShuffleInPlace(chars, rng);
    r := chars[..];
    ShuffledPermutes(str, rng.sample, old(rng.pos));
  }
}
