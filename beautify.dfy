/** `beautifyKeyword`: five leet substitutions, each applied on a coin flip,
    random re-casing of letters, and an optional trailing symbol. */
module Beautify {
  import opened Charsets
  import opened JsStrings
  import opened Randomness

  /** One entry of the substitution table: every `from`, in either case,
      becomes `to`. */
  datatype Substitution = Substitution(from: char, to: char)

  const Transformations: seq<Substitution> := [
    Substitution('a', '@'),
    Substitution('e', '3'),
    Substitution('i', '1'),
    Substitution('o', '0'),
    Substitution('s', '$')
  ]

  /** `s.replace(new RegExp(t.from, 'gi'), t.to)`: every occurrence of the
      letter, upper or lower case, is replaced. */
  function ReplaceAll(s: string, t: Substitution): string {
    seq(|s|, i requires 0 <= i < |s| => if ToLower(s[i]) == t.from then t.to else s[i])
  }

  /** The string after the first `k` coin flips of the substitution loop,
      the flips being the draws from position `p` on; and the position
      after them. */
  function Substituted(s: string, k: nat, d: Draws, p: nat): (r: (string, nat))
    requires k <= |Transformations|
    ensures |r.0| == |s| && r.1 == p + k
  {
    if k == 0 then (s, p)
    else
      var t := Substituted(s, k - 1, d, p);
      (if d(t.1) > 0.5 then ReplaceAll(t.0, Transformations[k - 1]) else t.0, t.1 + 1)
  }

  /** One character of the re-casing map: a first draw above 0.7 selects an
      ASCII letter for re-casing, a second draw above 0.5 makes it upper
      case, otherwise lower case. */
  function RecaseChar(c: char, d: Draws, p: nat): (char, nat) {
    if d(p) > 0.7 && IsLetter(c) then
      (if d(p + 1) > 0.5 then ToUpper(c) else ToLower(c), p + 2)
    else
      (c, p + 1)
  }

  /** `s.split('').map(...).join('')` with the draws from position `p` on. */
  function Recased(s: string, d: Draws, p: nat): (r: (string, nat))
    ensures |r.0| == |s|
    ensures p + |s| <= r.1 <= p + 2 * |s|
  {
    if s == [] then ([], p)
    else
      var t := Recased(s[..|s| - 1], d, p);
      var c := RecaseChar(s[|s| - 1], d, t.1);
      (t.0 + [c.0], c.1)
  }

  /** The optional trailing symbol: when symbols are enabled, a draw above
      0.5 appends one symbol chosen by the next draw. */
  function TrailingSymbol(includeSymbols: bool, d: Draws, p: nat): (r: (string, nat))
    ensures r.0 == [] || (includeSymbols && |r.0| == 1 && r.0[0] in Symbols)
  {
    if includeSymbols && d(p) > 0.5 then (RandomChar(Symbols, d(p + 1)), p + 2)
    else ("", if includeSymbols then p + 1 else p)
  }

  /** `beautifyKeyword(keyword)` with the globals `beautifyKeywords` and
      `includeSymbols` as parameters and the draws from position `p` on. */
  function Beautified(keyword: string, beautifyKeywords: bool, includeSymbols: bool,
                      d: Draws, p: nat): (string, nat)
  {
    if keyword == [] then ("", p)
    else if !beautifyKeywords then (keyword, p)
    else
      var t := Substituted(keyword, |Transformations|, d, p);
      var u := Recased(t.0, d, t.1);
      var sym := TrailingSymbol(includeSymbols, d, u.1);
      (u.0 + sym.0, sym.1)
  }

  /** `o` is `c`, or `c` re-cased when `c` is an ASCII letter. */
  predicate CaseVariant(c: char, o: char) {
    o == c || (IsLetter(c) && (o == ToUpper(c) || o == ToLower(c)))
  }

  /** `o` is what beautification can make of `c`: a case variant of it, or
      the leet replacement of the letter `c`. */
  predicate LeetVariant(c: char, o: char) {
    CaseVariant(c, o) ||
    exists k :: 0 <= k < |Transformations| && ToLower(c) == Transformations[k].from && o == Transformations[k].to
  }

  /** After `k` flips, each character is the original one or the
      replacement of one of the first `k` substitutions whose letter it is. */
  lemma {:induction false} SubstitutedPointwise(s: string, k: nat, d: Draws, p: nat)
    requires k <= |Transformations|
    ensures var r := Substituted(s, k, d, p).0;
      forall i :: 0 <= i < |s| ==>
        r[i] == s[i] ||
        exists j :: 0 <= j < k && ToLower(s[i]) == Transformations[j].from && r[i] == Transformations[j].to
  {
    if k > 0 {
      SubstitutedPointwise(s, k - 1, d, p);
      var t := Substituted(s, k - 1, d, p).0;
      var r := Substituted(s, k, d, p).0;
      forall i | 0 <= i < |s|
        ensures r[i] == s[i] ||
          exists j :: 0 <= j < k && ToLower(s[i]) == Transformations[j].from && r[i] == Transformations[j].to
      {
        if r[i] != t[i] {
          // The letter matched now, so an earlier substitution (whose
          // replacement is never a letter) did not touch this position.
          assert ToLower(t[i]) == Transformations[k - 1].from;
          assert t[i] == s[i];
        }
      }
    }
  }

  /** Re-casing changes at most the case of each ASCII letter. */
  lemma {:induction false} RecasedPointwise(s: string, d: Draws, p: nat)
    ensures var r := Recased(s, d, p).0;
      forall i :: 0 <= i < |s| ==> CaseVariant(s[i], r[i])
    decreases |s|
  {
    if s != [] {
      RecasedPointwise(s[..|s| - 1], d, p);
    }
  }

  /** What `beautifyKeyword` promises: an empty keyword gives the empty
      string; with beautification off the keyword is returned unchanged;
      otherwise each character is a leet variant of the keyword's character
      at the same position, and one more character, a symbol, may follow,
      but only when symbols are enabled. */
  lemma BeautifiedShape(keyword: string, beautifyKeywords: bool, includeSymbols: bool, d: Draws, p: nat)
    ensures var r := Beautified(keyword, beautifyKeywords, includeSymbols, d, p).0;
      && (keyword == [] ==> r == [])
      && (!beautifyKeywords ==> r == keyword)
      && (|r| == |keyword| || (includeSymbols && |r| == |keyword| + 1 && r[|keyword|] in Symbols))
      && (forall i :: 0 <= i < |keyword| ==> LeetVariant(keyword[i], r[i]))
  {
    var r := Beautified(keyword, beautifyKeywords, includeSymbols, d, p).0;
    if keyword != [] && beautifyKeywords {
      var t1 := Substituted(keyword, |Transformations|, d, p);
      var t, u := t1.0, Recased(t1.0, d, t1.1).0;
      SubstitutedPointwise(keyword, |Transformations|, d, p);
      RecasedPointwise(t, d, t1.1);
      assert r[..|keyword|] == u;
      forall i | 0 <= i < |keyword| ensures LeetVariant(keyword[i], r[i]) {
        assert r[i] == u[i];
        if t[i] != keyword[i] {
          var j :| 0 <= j < |Transformations| && ToLower(keyword[i]) == Transformations[j].from && t[i] == Transformations[j].to;
          assert u[i] == t[i];
        }
      }
    }
  }

  /** The substitution loop of `beautifyKeyword`. */
  method ApplySubstitutions(keyword: string, rng: RandomSource) returns (result: string)
    modifies rng
    ensures (result, rng.pos) == Substituted(keyword, |Transformations|, rng.sample, old(rng.pos))
  {
    result := keyword;
    for k := 0 to |Transformations|
      invariant (result, rng.pos) == Substituted(keyword, k, rng.sample, old(rng.pos))
    {
      var x := rng.Next();
      if x > 0.5 {
        result := ReplaceAll(result, Transformations[k]);
      }
    }
  }

  /** The re-casing map of `beautifyKeyword`. */
  method RecaseLetters(chars: string, rng: RandomSource) returns (result: string)
    modifies rng
    ensures (result, rng.pos) == Recased(chars, rng.sample, old(rng.pos))
  {
    result := "";
    for i := 0 to |chars|
      invariant (result, rng.pos) == Recased(chars[..i], rng.sample, old(rng.pos))
    {
      assert chars[..i + 1][..i] == chars[..i];
      var c := chars[i];
      var x := rng.Next();
      if x > 0.7 && IsLetter(c) {
        var y := rng.Next();
        c := if y > 0.5 then ToUpper(c) else ToLower(c);
      }
      result := result + [c];
    }
    assert chars[..|chars|] == chars;
  }

  /** The trailing-symbol step of `beautifyKeyword`. */
  method MaybeSymbol(includeSymbols: bool, rng: RandomSource) returns (symbol: string)
    modifies rng
    ensures (symbol, rng.pos) == TrailingSymbol(includeSymbols, rng.sample, old(rng.pos))
  {
    symbol := "";
    if includeSymbols {
      var x := rng.Next();
      if x > 0.5 {
        symbol := GetRandomChar(Symbols, rng);
      }
    }
  }

  /** `beautifyKeyword`, drawing from `rng`. */
  method BeautifyKeyword(keyword: string, beautifyKeywords: bool, includeSymbols: bool,
                         rng: RandomSource) returns (result: string)
    modifies rng
    ensures (result, rng.pos) == Beautified(keyword, beautifyKeywords, includeSymbols, rng.sample, old(rng.pos))
  {
    if keyword == [] {
      return "";
    }
    result := keyword;
    if beautifyKeywords {
      result := ApplySubstitutions(result, rng);
      result := RecaseLetters(result, rng);
      var symbol := MaybeSymbol(includeSymbols, rng);
      result := result + symbol;
    }
  }
}
