/** `generatePassword`: the keyword branch (budgeted and beautified
    keywords, coverage characters, padding, truncation) and the plain branch
    (one character per selected class, padding), both finished by the
    shuffle. */
module Composer {
  import opened Charsets
  import opened JsStrings
  import opened Randomness
  import opened Beautify
  import opened Shuffle
  import opened Configuration

  /** `Math.floor((passwordLength - keywords.length * 2) / keywords.length)`;
      Dafny's `/` rounds down for a positive divisor. */
  function KeywordBudget(cfg: Config): (b: int)
    requires |cfg.keywords| > 0
    ensures b * |cfg.keywords| <= cfg.passwordLength - 2 * |cfg.keywords| < (b + 1) * |cfg.keywords|
  {
    (cfg.passwordLength - |cfg.keywords| * 2) / |cfg.keywords|
  }

  /** The keyword string: each keyword sliced to the budget and beautified,
      in order, with the draws from position `p` on. */
  function ProcessedKeywords(keywords: seq<string>, budget: int, beautifyKeywords: bool,
                             includeSymbols: bool, d: Draws, p: nat): (string, nat)
    decreases |keywords|
  {
    if keywords == [] then ("", p)
    else
      var s := ProcessedKeywords(keywords[..|keywords| - 1], budget, beautifyKeywords, includeSymbols, d, p);
      var b := Beautified(Slice(keywords[|keywords| - 1], budget), beautifyKeywords, includeSymbols, d, s.1);
      (s.0 + b.0, b.1)
  }

  /** `if (wanted) requiredChars.push(getRandomChar(alphabet))`. */
  function Pick(wanted: bool, cl: CharClass, d: Draws, p: nat): (r: (string, nat))
    ensures wanted ==> |r.0| == 1 && InClass(cl, r.0[0]) && r.1 == p + 1
    ensures !wanted ==> r.0 == [] && r.1 == p
  {
    if wanted then
      var c := RandomChar(Alphabet(cl), d(p));
      AlphabetMatchesClass(cl, c[0]);
      (c, p + 1)
    else ("", p)
  }

  /** The four coverage checks in their order (upper, lower, digits,
      symbols): each wanted class contributes one character of its own. */
  function FourPicks(wu: bool, wl: bool, wn: bool, ws: bool, d: Draws, p: nat): (string, nat) {
    var u := Pick(wu, Upper, d, p);
    var l := Pick(wl, Lower, d, u.1);
    var n := Pick(wn, Number, d, l.1);
    var s := Pick(ws, Symbol, d, n.1);
    (u.0 + l.0 + n.0 + s.0, s.1)
  }

  /** The coverage characters of the keyword branch: one for each selected
      class the keyword string `prefix` has no character of. */
  function CoverageChars(cfg: Config, prefix: string, d: Draws, p: nat): (string, nat) {
    FourPicks(cfg.includeUppercase && !Mentions(prefix, Upper), cfg.includeLowercase && !Mentions(prefix, Lower),
              cfg.includeNumbers && !Mentions(prefix, Number), cfg.includeSymbols && !Mentions(prefix, Symbol), d, p)
  }

  /** The required characters of the plain branch: one for each selected
      class. */
  function SeedChars(cfg: Config, d: Draws, p: nat): (string, nat) {
    FourPicks(cfg.includeUppercase, cfg.includeLowercase, cfg.includeNumbers, cfg.includeSymbols, d, p)
  }

  /** The padding loop: while the password is shorter than `length` and the
      charset is not empty, append a character of the charset. The password
      grows to `length` exactly, only by charset characters, unless the
      charset is empty; then it is left alone. */
  function Padded(password: string, length: int, charset: string, d: Draws, p: nat): (r: (string, nat))
    ensures charset != [] ==> |r.0| == Max(|password|, length)
    ensures charset == [] ==> r.0 == password
    ensures |password| <= |r.0| && r.0[..|password|] == password
    ensures forall i :: |password| <= i < |r.0| ==> r.0[i] in charset
    decreases if length > |password| then length - |password| else 0
  {
    if |password| < length && charset != [] then
      Padded(password + RandomChar(charset, d(p)), length, charset, d, p + 1)
    else (password, p)
  }

  /** The keyword branch before the shuffle, each keyword sliced to
      `budget`: keyword string, coverage characters, padding, truncation. */
  function KeywordComposed(cfg: Config, budget: int, d: Draws, p: nat): (string, nat) {
    var ks := ProcessedKeywords(cfg.keywords, budget, cfg.beautifyKeywords, cfg.includeSymbols, d, p);
    var required := CoverageChars(cfg, ks.0, d, ks.1);
    var padded := Padded(ks.0 + required.0, cfg.passwordLength, CharsetOf(cfg), d, required.1);
    (Slice(padded.0, cfg.passwordLength), padded.1)
  }

  /** The password before the shuffle, with the draws from position `p` on. */
  function Unshuffled(cfg: Config, d: Draws, p: nat): (string, nat) {
    if UsesKeywords(cfg) then
      KeywordComposed(cfg, KeywordBudget(cfg), d, p)
    else
      var required := SeedChars(cfg, d, p);
      Padded(required.0, cfg.passwordLength, CharsetOf(cfg), d, required.1)
  }

  /** `generatePassword()` for the settings `cfg` and the draws from
      position `p` on; and the position after it. */
  function Generated(cfg: Config, d: Draws, p: nat): (string, nat) {
    var u := Unshuffled(cfg, d, p);
    Shuffled(u.0, d, u.1)
  }

  // ---------------------------------------------------------------------
  // Properties

  /** `c` is what beautification can make of some character of some keyword. */
  predicate FromKeywords(keywords: seq<string>, c: char) {
    exists k, j :: 0 <= k < |keywords| && 0 <= j < |keywords[k]| && LeetVariant(keywords[k][j], c)
  }

  /** Every character of `s` comes from a keyword through beautification,
      or is a symbol (and symbols are enabled). */
  predicate Traceable(s: string, keywords: seq<string>, includeSymbols: bool) {
    forall i :: 0 <= i < |s| ==> FromKeywords(keywords, s[i]) || (includeSymbols && s[i] in Symbols)
  }

  lemma MentionsAppend(a: string, b: string, cl: CharClass)
    ensures Mentions(a + b, cl) <==> Mentions(a, cl) || Mentions(b, cl)
  {
    if Mentions(a + b, cl) {
      var i :| 0 <= i < |a + b| && InClass(cl, (a + b)[i]);
      if i < |a| {
        assert a[i] == (a + b)[i];
        assert InClass(cl, a[i]);
      } else {
        assert b[i - |a|] == (a + b)[i];
        assert InClass(cl, b[i - |a|]);
      }
    }
    if Mentions(a, cl) {
      var i :| 0 <= i < |a| && InClass(cl, a[i]);
      assert (a + b)[i] == a[i];
      assert InClass(cl, (a + b)[i]);
    }
    if Mentions(b, cl) {
      var i :| 0 <= i < |b| && InClass(cl, b[i]);
      assert (a + b)[|a| + i] == b[i];
      assert InClass(cl, (a + b)[|a| + i]);
    }
  }

  lemma MentionsPermuted(a: string, b: string, cl: CharClass)
    requires multiset(a) == multiset(b)
    ensures Mentions(a, cl) ==> Mentions(b, cl)
  {
    if Mentions(a, cl) {
      var i :| 0 <= i < |a| && InClass(cl, a[i]);
      assert a[i] in multiset(b);
      var j :| 0 <= j < |b| && b[j] == a[i];
      assert InClass(cl, b[j]);
    }
  }

  /** The four picks draw exactly one character of each wanted class, and
      nothing else. */
  lemma FourPicksShape(wu: bool, wl: bool, wn: bool, ws: bool, d: Draws, p: nat)
    ensures var r := FourPicks(wu, wl, wn, ws, d, p).0;
      && |r| == (if wu then 1 else 0) + (if wl then 1 else 0) + (if wn then 1 else 0) + (if ws then 1 else 0)
      && (wu ==> Mentions(r, Upper)) && (wl ==> Mentions(r, Lower))
      && (wn ==> Mentions(r, Number)) && (ws ==> Mentions(r, Symbol))
      && (forall c :: c in r ==> c in Charset(wu, wl, wn, ws))
  {
    var u := Pick(wu, Upper, d, p);
    var l := Pick(wl, Lower, d, u.1);
    var n := Pick(wn, Number, d, l.1);
    var s := Pick(ws, Symbol, d, n.1);
    PicksConcatenated(wu, wl, wn, ws, u.0, l.0, n.0, s.0);
  }

  /** `PickShape(w, cl, s)`: `s` is one character of `cl` when `w`, else empty. */
  predicate PickShape(w: bool, cl: CharClass, s: string) {
    if w then |s| == 1 && InClass(cl, s[0]) else s == []
  }

  /** The draw-independent step of `FourPicksShape`. */
  lemma PicksConcatenated(wu: bool, wl: bool, wn: bool, ws: bool, u: string, l: string, n: string, s: string)
    requires PickShape(wu, Upper, u) && PickShape(wl, Lower, l)
    requires PickShape(wn, Number, n) && PickShape(ws, Symbol, s)
    ensures var r := u + l + n + s;
      && |r| == (if wu then 1 else 0) + (if wl then 1 else 0) + (if wn then 1 else 0) + (if ws then 1 else 0)
      && (wu ==> Mentions(r, Upper)) && (wl ==> Mentions(r, Lower))
      && (wn ==> Mentions(r, Number)) && (ws ==> Mentions(r, Symbol))
      && (forall c :: c in r ==> c in Charset(wu, wl, wn, ws))
  {
    var r := u + l + n + s;
    if wu { assert r[0] == u[0]; }
    if wl { assert r[|u|] == l[0]; }
    if wn { assert r[|u| + |l|] == n[0]; }
    if ws { assert r[|u| + |l| + |n|] == s[0]; }
    forall c | c in r ensures c in Charset(wu, wl, wn, ws) {
      var i :| 0 <= i < |r| && r[i] == c;
      if i < |u| { assert c == u[0]; }
      else if i < |u| + |l| { assert c == l[0]; }
      else if i < |u| + |l| + |n| { assert c == n[0]; }
      else { assert c == s[0]; }
    }
  }

  /** The plain branch draws exactly one character of every selected class,
      and nothing else. */
  lemma SeedCharsCover(cfg: Config, d: Draws, p: nat)
    ensures var s := SeedChars(cfg, d, p).0;
      |s| == EnabledCount(cfg) &&
      (forall cl :: Enabled(cfg, cl) ==> Mentions(s, cl)) &&
      (forall c :: c in s ==> c in CharsetOf(cfg))
  {
    FourPicksShape(cfg.includeUppercase, cfg.includeLowercase, cfg.includeNumbers, cfg.includeSymbols, d, p);
  }

  /** The coverage characters, appended to the keyword string, give it a
      character of every selected class; they are all charset characters. */
  lemma CoverageCharsCover(cfg: Config, prefix: string, d: Draws, p: nat)
    ensures var s := CoverageChars(cfg, prefix, d, p).0;
      |s| <= EnabledCount(cfg) &&
      (forall cl :: Enabled(cfg, cl) ==> Mentions(prefix + s, cl)) &&
      (forall c :: c in s ==> c in CharsetOf(cfg))
  {
    var wu := cfg.includeUppercase && !Mentions(prefix, Upper);
    var wl := cfg.includeLowercase && !Mentions(prefix, Lower);
    var wn := cfg.includeNumbers && !Mentions(prefix, Number);
    var ws := cfg.includeSymbols && !Mentions(prefix, Symbol);
    FourPicksShape(wu, wl, wn, ws, d, p);
    CoverageFromPicks(cfg, prefix, wu, wl, wn, ws, FourPicks(wu, wl, wn, ws, d, p).0);
  }

  /** The step of `CoverageCharsCover` that does not depend on the draws. */
  lemma CoverageFromPicks(cfg: Config, prefix: string, wu: bool, wl: bool, wn: bool, ws: bool, s: string)
    requires wu == (cfg.includeUppercase && !Mentions(prefix, Upper))
    requires wl == (cfg.includeLowercase && !Mentions(prefix, Lower))
    requires wn == (cfg.includeNumbers && !Mentions(prefix, Number))
    requires ws == (cfg.includeSymbols && !Mentions(prefix, Symbol))
    requires |s| == (if wu then 1 else 0) + (if wl then 1 else 0) + (if wn then 1 else 0) + (if ws then 1 else 0)
    requires (wu ==> Mentions(s, Upper)) && (wl ==> Mentions(s, Lower))
    requires (wn ==> Mentions(s, Number)) && (ws ==> Mentions(s, Symbol))
    requires forall c :: c in s ==> c in Charset(wu, wl, wn, ws)
    ensures |s| <= EnabledCount(cfg)
    ensures forall cl :: Enabled(cfg, cl) ==> Mentions(prefix + s, cl)
    ensures forall c :: c in s ==> c in CharsetOf(cfg)
  {
    forall c | c in s ensures c in CharsetOf(cfg) {
      assert c in Charset(wu, wl, wn, ws);
    }
    forall cl | Enabled(cfg, cl) ensures Mentions(prefix + s, cl) {
      MentionsAppend(prefix, s, cl);
    }
  }

  /** Every character of the keyword string comes from a keyword, through
      beautification, or is a trailing symbol appended only when symbols are
      enabled. */
  lemma {:induction false} ProcessedKeywordsSources(keywords: seq<string>, budget: int, beautifyKeywords: bool,
                                                    includeSymbols: bool, d: Draws, p: nat)
    ensures Traceable(ProcessedKeywords(keywords, budget, beautifyKeywords, includeSymbols, d, p).0,
                      keywords, includeSymbols)
    decreases |keywords|
  {
    if keywords != [] {
      var init := keywords[..|keywords| - 1];
      var last := keywords[|keywords| - 1];
      ProcessedKeywordsSources(init, budget, beautifyKeywords, includeSymbols, d, p);
      var s := ProcessedKeywords(init, budget, beautifyKeywords, includeSymbols, d, p).0;
      var q := ProcessedKeywords(init, budget, beautifyKeywords, includeSymbols, d, p).1;
      var kw := Slice(last, budget);
      var b := Beautified(kw, beautifyKeywords, includeSymbols, d, q).0;
      BeautifiedShape(kw, beautifyKeywords, includeSymbols, d, q);
      var r := s + b;
      assert r == ProcessedKeywords(keywords, budget, beautifyKeywords, includeSymbols, d, p).0;
      forall i | 0 <= i < |r| ensures FromKeywords(keywords, r[i]) || (includeSymbols && r[i] in Symbols) {
        if i < |s| {
          assert r[i] == s[i];
          if FromKeywords(init, s[i]) {
            var k, j :| 0 <= k < |init| && 0 <= j < |init[k]| && LeetVariant(init[k][j], s[i]);
            assert init[k] == keywords[k];
            assert LeetVariant(keywords[k][j], r[i]);
            assert FromKeywords(keywords, r[i]);
          } else {
            assert includeSymbols && s[i] in Symbols;
          }
        } else {
          var j := i - |s|;
          assert r[i] == b[j];
          if j < |kw| {
            assert kw[j] == last[j];
            assert LeetVariant(keywords[|keywords| - 1][j], r[i]);
            assert FromKeywords(keywords, r[i]);
          } else {
            assert includeSymbols && r[i] in Symbols;
          }
        }
      }
    }
  }

  /** The shuffle only reorders: the password has the characters the
      construction produced, as many times each. */
  lemma GeneratedPermutesUnshuffled(cfg: Config, d: Draws, p: nat)
    ensures |Generated(cfg, d, p).0| == |Unshuffled(cfg, d, p).0|
    ensures multiset(Generated(cfg, d, p).0) == multiset(Unshuffled(cfg, d, p).0)
  {
    var u := Unshuffled(cfg, d, p);
    ShuffledPermutes(u.0, d, u.1);
  }

  /** Plain branch: with at least one class selected, the password has the
      requested length, or one character per selected class when that is
      more; with none selected it is empty. */
  lemma PlainBranchLength(cfg: Config, d: Draws, p: nat)
    requires !UsesKeywords(cfg)
    ensures EnabledCount(cfg) > 0 ==> |Generated(cfg, d, p).0| == Max(cfg.passwordLength, EnabledCount(cfg))
    ensures EnabledCount(cfg) == 0 ==> Generated(cfg, d, p).0 == []
  {
    SeedCharsCover(cfg, d, p);
    GeneratedPermutesUnshuffled(cfg, d, p);
  }

  /** Plain branch, before the shuffle: the required characters come first,
      one of every selected class, then only charset characters. */
  lemma PlainBranchUnshuffled(cfg: Config, d: Draws, p: nat)
    requires !UsesKeywords(cfg)
    ensures forall cl :: Enabled(cfg, cl) ==> Mentions(Unshuffled(cfg, d, p).0, cl)
    ensures forall c :: c in Unshuffled(cfg, d, p).0 ==> c in CharsetOf(cfg)
  {
    var seed := SeedChars(cfg, d, p);
    SeedCharsCover(cfg, d, p);
    ExtendedKeeps(cfg, seed.0, Padded(seed.0, cfg.passwordLength, CharsetOf(cfg), d, seed.1).0);
  }

  /** The draw-independent step of `PlainBranchUnshuffled`: extending a
      covering string by charset characters keeps it covering. */
  lemma ExtendedKeeps(cfg: Config, seed: string, u: string)
    requires |seed| <= |u| && u[..|seed|] == seed
    requires forall i :: |seed| <= i < |u| ==> u[i] in CharsetOf(cfg)
    requires forall cl :: Enabled(cfg, cl) ==> Mentions(seed, cl)
    requires forall c :: c in seed ==> c in CharsetOf(cfg)
    ensures forall cl :: Enabled(cfg, cl) ==> Mentions(u, cl)
    ensures forall c :: c in u ==> c in CharsetOf(cfg)
  {
    assert u == seed + u[|seed|..];
    forall cl | Enabled(cfg, cl) ensures Mentions(u, cl) {
      MentionsAppend(seed, u[|seed|..], cl);
    }
    forall c | c in u ensures c in CharsetOf(cfg) {
      var i :| 0 <= i < |u| && u[i] == c;
      if i < |seed| { assert seed[i] == c; }
    }
  }

  /** Plain branch: the password has a character of every selected class,
      and only characters of selected classes. */
  lemma PlainBranchCoverage(cfg: Config, d: Draws, p: nat)
    requires !UsesKeywords(cfg)
    ensures forall cl :: Enabled(cfg, cl) ==> Mentions(Generated(cfg, d, p).0, cl)
    ensures forall c :: c in Generated(cfg, d, p).0 ==> c in CharsetOf(cfg)
  {
    var u := Unshuffled(cfg, d, p).0;
    var g := Generated(cfg, d, p).0;
    PlainBranchUnshuffled(cfg, d, p);
    GeneratedPermutesUnshuffled(cfg, d, p);
    forall cl | Enabled(cfg, cl) ensures Mentions(g, cl) {
      MentionsPermuted(u, g, cl);
    }
    forall c | c in g ensures c in CharsetOf(cfg) {
      assert c in multiset(g);
    }
  }

  /** Keyword branch: the password is never longer than requested, and
      exactly as long whenever the charset is not empty. (A negative length
      is excluded: `slice(0, n)` with `n < 0` keeps all but `-n` characters.) */
  lemma KeywordBranchLength(cfg: Config, d: Draws, p: nat)
    requires UsesKeywords(cfg) && cfg.passwordLength >= 0
    ensures |Generated(cfg, d, p).0| <= cfg.passwordLength
    ensures CharsetOf(cfg) != [] ==> |Generated(cfg, d, p).0| == cfg.passwordLength
  {
    GeneratedPermutesUnshuffled(cfg, d, p);
  }

  /** Keyword branch, before truncation: the keyword string and the coverage
      characters together have a character of every selected class. The
      truncation that follows can cut coverage characters off. */
  lemma KeywordBranchCoverageBeforeTruncation(cfg: Config, d: Draws, p: nat)
    requires UsesKeywords(cfg)
    ensures var ks := ProcessedKeywords(cfg.keywords, KeywordBudget(cfg), cfg.beautifyKeywords,
                                        cfg.includeSymbols, d, p);
      forall cl :: Enabled(cfg, cl) ==> Mentions(ks.0 + CoverageChars(cfg, ks.0, d, ks.1).0, cl)
  {
    var ks := ProcessedKeywords(cfg.keywords, KeywordBudget(cfg), cfg.beautifyKeywords, cfg.includeSymbols, d, p);
    CoverageCharsCover(cfg, ks.0, d, ks.1);
  }

  /** Keyword branch, before the shuffle: every character is a charset
      character or comes from a keyword. */
  lemma KeywordBranchUnshuffled(cfg: Config, d: Draws, p: nat)
    requires UsesKeywords(cfg)
    ensures forall c :: c in Unshuffled(cfg, d, p).0 ==> c in CharsetOf(cfg) || FromKeywords(cfg.keywords, c)
  {
    var ks := ProcessedKeywords(cfg.keywords, KeywordBudget(cfg), cfg.beautifyKeywords, cfg.includeSymbols, d, p);
    var required := CoverageChars(cfg, ks.0, d, ks.1);
    var pre := ks.0 + required.0;
    var padded := Padded(pre, cfg.passwordLength, CharsetOf(cfg), d, required.1).0;
    var u := Unshuffled(cfg, d, p).0;
    assert u == Slice(padded, cfg.passwordLength);
    ProcessedKeywordsSources(cfg.keywords, KeywordBudget(cfg), cfg.beautifyKeywords, cfg.includeSymbols, d, p);
    CoverageCharsCover(cfg, ks.0, d, ks.1);
    forall c | c in u ensures c in CharsetOf(cfg) || FromKeywords(cfg.keywords, c) {
      var i :| 0 <= i < |u| && u[i] == c;
      assert padded[i] == c;
      if i < |ks.0| {
        assert pre[i] == ks.0[i];
        if !FromKeywords(cfg.keywords, c) {
          SymbolsMatch(c);
        }
      } else if i < |pre| {
        assert pre[i] == required.0[i - |ks.0|];
      }
    }
  }

  /** Every character of the password is a character of a selected class
      or, in the keyword branch, what beautification made of a keyword
      character. */
  lemma GeneratedCharacters(cfg: Config, d: Draws, p: nat)
    ensures forall c :: c in Generated(cfg, d, p).0 ==>
      c in CharsetOf(cfg) || (UsesKeywords(cfg) && FromKeywords(cfg.keywords, c))
  {
    var u := Unshuffled(cfg, d, p).0;
    var g := Generated(cfg, d, p).0;
    GeneratedPermutesUnshuffled(cfg, d, p);
    if UsesKeywords(cfg) {
      KeywordBranchUnshuffled(cfg, d, p);
    } else {
      PlainBranchUnshuffled(cfg, d, p);
    }
    forall c | c in g ensures c in u {
      assert c in multiset(g);
    }
  }

  // ---------------------------------------------------------------------
  // The imperative generator

  /** The padding loop, drawing from `rng`. */
  method Fill(password: string, length: int, charset: string, rng: RandomSource) returns (result: string)
    modifies rng
    ensures (result, rng.pos) == Padded(password, length, charset, rng.sample, old(rng.pos))
  {
    result := password;
    while |result| < length && charset != []
      invariant Padded(result, length, charset, rng.sample, rng.pos) == Padded(password, length, charset, rng.sample, old(rng.pos))
      decreases length - |result|
    {
      var c := GetRandomChar(charset, rng);
      result := result + c;
    }
  }

  /** The keyword loop: slice each keyword to the budget, beautify it and
      append it. */
  method KeywordString(keywords: seq<string>, budget: int, beautifyKeywords: bool, includeSymbols: bool,
                       rng: RandomSource) returns (keywordString: string)
    modifies rng
    ensures (keywordString, rng.pos) == ProcessedKeywords(keywords, budget, beautifyKeywords, includeSymbols,
                                                          rng.sample, old(rng.pos))
  {
    keywordString := "";
    for k := 0 to |keywords|
      invariant (keywordString, rng.pos) == ProcessedKeywords(keywords[..k], budget, beautifyKeywords,
                                                              includeSymbols, rng.sample, old(rng.pos))
    {
      assert keywords[..k + 1][..k] == keywords[..k];
      var processedKeyword := BeautifyKeyword(Slice(keywords[k], budget), beautifyKeywords, includeSymbols, rng);
      keywordString := keywordString + processedKeyword;
    }
    assert keywords[..|keywords|] == keywords;
  }

  /** The four coverage checks, each wanted class drawing one character of
      its alphabet into `requiredChars`. */
  method PushRequired(wu: bool, wl: bool, wn: bool, ws: bool, rng: RandomSource) returns (requiredChars: string)
    modifies rng
    ensures (requiredChars, rng.pos) == FourPicks(wu, wl, wn, ws, rng.sample, old(rng.pos))
  {
    ghost var p0 := rng.pos;
    requiredChars := "";
    ghost var u := Pick(wu, Upper, rng.sample, p0);
    if wu {
      var c := GetRandomChar(Uppercase, rng);
      requiredChars := requiredChars + c;
    }
    assert requiredChars == u.0 && rng.pos == u.1;
    ghost var l := Pick(wl, Lower, rng.sample, u.1);
    if wl {
      var c := GetRandomChar(Lowercase, rng);
      requiredChars := requiredChars + c;
    }
    assert requiredChars == u.0 + l.0 && rng.pos == l.1;
    ghost var n := Pick(wn, Number, rng.sample, l.1);
    if wn {
      var c := GetRandomChar(Digits, rng);
      requiredChars := requiredChars + c;
    }
    assert requiredChars == u.0 + l.0 + n.0 && rng.pos == n.1;
    ghost var s := Pick(ws, Symbol, rng.sample, n.1);
    if ws {
      var c := GetRandomChar(Symbols, rng);
      requiredChars := requiredChars + c;
    }
    assert requiredChars == u.0 + l.0 + n.0 + s.0 && rng.pos == s.1;
  }

  /** The coverage checks of the keyword branch, against `password`. */
  method RequiredForCoverage(cfg: Config, password: string, rng: RandomSource) returns (requiredChars: string)
    modifies rng
    ensures (requiredChars, rng.pos) == CoverageChars(cfg, password, rng.sample, old(rng.pos))
  {
    requiredChars := PushRequired(
      cfg.includeUppercase && !Mentions(password, Upper), cfg.includeLowercase && !Mentions(password, Lower),
      cfg.includeNumbers && !Mentions(password, Number), cfg.includeSymbols && !Mentions(password, Symbol), rng);
  }

  /** The keyword branch of `generatePassword()`, up to the shuffle. */
  method ComposeWithKeywords(cfg: Config, charset: string, rng: RandomSource) returns (password: string)
    requires UsesKeywords(cfg) && charset == CharsetOf(cfg)
    modifies rng
    ensures (password, rng.pos) == Unshuffled(cfg, rng.sample, old(rng.pos))
  {
    ghost var d, p0 := rng.sample, rng.pos;
    password := "";
    var maxKeywordLength := (cfg.passwordLength - |cfg.keywords| * 2) / |cfg.keywords|;
    var keywordString := KeywordString(cfg.keywords, maxKeywordLength, cfg.beautifyKeywords,
                                       cfg.includeSymbols, rng);
    ghost var ks := ProcessedKeywords(cfg.keywords, KeywordBudget(cfg), cfg.beautifyKeywords, cfg.includeSymbols, d, p0);
    assert (keywordString, rng.pos) == ks;
    password := password + keywordString;
    assert password == keywordString;
    var requiredChars := RequiredForCoverage(cfg, password, rng);
    ghost var required := CoverageChars(cfg, ks.0, d, ks.1);
    assert (requiredChars, rng.pos) == required;
    password := password + requiredChars;
    password := Fill(password, cfg.passwordLength, charset, rng);
    ghost var padded := Padded(ks.0 + required.0, cfg.passwordLength, charset, d, required.1);
    assert (password, rng.pos) == padded;
    password := Slice(password, cfg.passwordLength);
    assert Unshuffled(cfg, d, p0) == (Slice(padded.0, cfg.passwordLength), padded.1);
  }

  /** The branch of `generatePassword()` without keywords, up to the
      shuffle. */
  method ComposePlain(cfg: Config, charset: string, rng: RandomSource) returns (password: string)
    requires !UsesKeywords(cfg) && charset == CharsetOf(cfg)
    modifies rng
    ensures (password, rng.pos) == Unshuffled(cfg, rng.sample, old(rng.pos))
  {
    ghost var d, p0 := rng.sample, rng.pos;
    password := "";
    var requiredChars := PushRequired(cfg.includeUppercase, cfg.includeLowercase,
                                      cfg.includeNumbers, cfg.includeSymbols, rng);
    assert (requiredChars, rng.pos) == SeedChars(cfg, d, p0);
    password := password + requiredChars;
    assert password == requiredChars;
    password := Fill(password, cfg.passwordLength, charset, rng);
  }

  /** The charset the first lines of `generatePassword` build. */
  method BuildCharset(cfg: Config) returns (charset: string)
    ensures charset == CharsetOf(cfg)
  {
    charset := "";
    if cfg.includeUppercase { charset := charset + Uppercase; }
    if cfg.includeLowercase { charset := charset + Lowercase; }
    if cfg.includeNumbers { charset := charset + Digits; }
    if cfg.includeSymbols { charset := charset + Symbols; }
  }

  /** `generatePassword()`, reading the settings `cfg` and drawing from `rng`. */
  method GeneratePassword(cfg: Config, rng: RandomSource) returns (password: string)
    modifies rng
    ensures (password, rng.pos) == Generated(cfg, rng.sample, old(rng.pos))
  {
    var charset := BuildCharset(cfg);
    if cfg.useKeywords && |cfg.keywords| > 0 {
      password := ComposeWithKeywords(cfg, charset, rng);
    } else {
      password := ComposePlain(cfg, charset, rng);
    }
    password := ShuffleString(password, rng);
  }
}
