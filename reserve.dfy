/** The keyword budget of `generatePassword` and the truncation after it.
    The budget reserves two characters per keyword, but each beautified
    keyword may grow by a trailing symbol and up to four coverage
    characters follow, so the final `slice(0, passwordLength)` can cut off
    the coverage characters. A budget that reserves one character per
    keyword and one per selected class keeps every selected class. */
module KeywordReserve {
  import opened Charsets
  import opened JsStrings
  import opened Randomness
  import opened Beautify
  import opened Shuffle
  import opened Configuration
  import opened Composer

  /** One keyword, sliced to a budget and beautified, is at most one
      character longer than the budget, and empty when the budget is zero. */
  lemma BeautifiedSliceLength(keyword: string, budget: int, beautifyKeywords: bool, includeSymbols: bool,
                              d: Draws, p: nat)
    requires budget >= 0
    ensures |Beautified(Slice(keyword, budget), beautifyKeywords, includeSymbols, d, p).0| <= budget + 1
    ensures budget == 0 ==> Beautified(Slice(keyword, budget), beautifyKeywords, includeSymbols, d, p).0 == []
  {
    BeautifiedShape(Slice(keyword, budget), beautifyKeywords, includeSymbols, d, p);
  }

  /** Each keyword contributes at most one character more than the budget,
      and nothing at all when the budget is zero. */
  lemma {:induction false} ProcessedKeywordsLength(keywords: seq<string>, budget: int, beautifyKeywords: bool,
                                                   includeSymbols: bool, d: Draws, p: nat)
    requires budget >= 0
    ensures |ProcessedKeywords(keywords, budget, beautifyKeywords, includeSymbols, d, p).0| <= |keywords| * (budget + 1)
    ensures budget == 0 ==> ProcessedKeywords(keywords, budget, beautifyKeywords, includeSymbols, d, p).0 == []
    decreases |keywords|
  {
    if keywords != [] {
      var init := keywords[..|keywords| - 1];
      ProcessedKeywordsLength(init, budget, beautifyKeywords, includeSymbols, d, p);
      var s := ProcessedKeywords(init, budget, beautifyKeywords, includeSymbols, d, p);
      var b := Beautified(Slice(keywords[|keywords| - 1], budget), beautifyKeywords, includeSymbols, d, s.1);
      assert ProcessedKeywords(keywords, budget, beautifyKeywords, includeSymbols, d, p).0 == s.0 + b.0;
      BeautifiedSliceLength(keywords[|keywords| - 1], budget, beautifyKeywords, includeSymbols, d, s.1);
      SumBound(|s.0|, |b.0|, |init|, budget);
    }
  }

  lemma SumBound(x: nat, y: nat, n: nat, budget: nat)
    requires x <= n * (budget + 1) && y <= budget + 1
    ensures x + y <= (n + 1) * (budget + 1)
  {
    assert (n + 1) * (budget + 1) == n * (budget + 1) + (budget + 1);
  }

  /** A prefix's characters are characters of the whole. */
  lemma PrefixKeepsMentions(a: string, u: string, cl: CharClass)
    requires |a| <= |u| && u[..|a|] == a
    ensures Mentions(a, cl) ==> Mentions(u, cl)
  {
    if Mentions(a, cl) {
      var i :| 0 <= i < |a| && InClass(cl, a[i]);
      assert u[i] == a[i];
    }
  }

  /** The settings of the counterexample: length 8, every class, keywords
      on, beautification off, the one keyword "abcdefgh". */
  const Overfull := Config(8, true, true, true, true, true, false, ["abcdefgh"])

  /** Its keyword string is "abcdef", drawn without a draw. */
  lemma OverfullKeywordString(d: Draws, p: nat)
    ensures ProcessedKeywords(Overfull.keywords, KeywordBudget(Overfull), false, true, d, p) == ("abcdef", p)
  {
    assert KeywordBudget(Overfull) == 6;
    assert Overfull.keywords[..0] == [];
    assert Slice("abcdefgh", 6) == "abcdef";
    assert Beautified("abcdef", false, true, d, p) == ("abcdef", p);
    assert "" + "abcdef" == "abcdef";
  }

  /** "abcdef" has lower case only. */
  lemma OverfullKeywordClasses()
    ensures Mentions("abcdef", Lower)
    ensures !Mentions("abcdef", Upper) && !Mentions("abcdef", Number) && !Mentions("abcdef", Symbol)
  {
    assert InClass(Lower, "abcdef"[0]);
  }

  /** "abcdef" lacks upper case, digits and symbols: three coverage
      characters follow, upper case first, then a digit, then a symbol. */
  lemma OverfullCoverage(d: Draws, p: nat)
    ensures var r := CoverageChars(Overfull, "abcdef", d, p).0;
      |r| == 3 && InClass(Upper, r[0]) && InClass(Number, r[1]) && InClass(Symbol, r[2])
  {
    var kw := "abcdef";
    OverfullKeywordClasses();
    var u := Pick(true, Upper, d, p);
    var l := Pick(false, Lower, d, u.1);
    var n := Pick(true, Number, d, l.1);
    var s := Pick(true, Symbol, d, n.1);
    assert CoverageChars(Overfull, kw, d, p).0 == u.0 + l.0 + n.0 + s.0;
  }

  /** As written: the budget is 6, "abcdef" has no upper case, digit or
      symbol, so three coverage characters follow, and the truncation to
      8 cuts the symbol off. For every sequence of draws the password has
      no symbol although symbols are selected. */
  lemma TruncationDropsSymbol(d: Draws, p: nat)
    ensures Enabled(Overfull, Symbol) && !Mentions(Generated(Overfull, d, p).0, Symbol)
  {
    var kw := "abcdef";
    OverfullKeywordString(d, p);
    OverfullCoverage(d, p);
    var required := CoverageChars(Overfull, kw, d, p);
    var r := required.0;
    var pre := kw + r;
    assert Padded(pre, 8, CharsetOf(Overfull), d, required.1).0 == pre;
    var u := Unshuffled(Overfull, d, p).0;
    assert u == Slice(pre, 8);
    NoSymbolAmong(u, kw, r);
    GeneratedPermutesUnshuffled(Overfull, d, p);
    MentionsPermuted(Generated(Overfull, d, p).0, u, Symbol);
  }

  /** The draw-independent step of `TruncationDropsSymbol`. */
  lemma NoSymbolAmong(u: string, kw: string, r: string)
    requires kw == "abcdef" && |r| == 3 && InClass(Upper, r[0]) && InClass(Number, r[1])
    requires u == (kw + r)[..8]
    ensures !Mentions(u, Symbol)
  {
    assert u == kw + [r[0], r[1]];
    forall i | 0 <= i < |u| ensures !InClass(Symbol, u[i]) {
      if i == 6 { ClassesDisjoint(Upper, Symbol, u[i]); }
      if i == 7 { ClassesDisjoint(Number, Symbol, u[i]); }
    }
  }

  /** The corrected budget: room for one trailing symbol per keyword and
      one coverage character per selected class is kept free. */
  function ReservedBudget(cfg: Config): (b: nat)
    requires |cfg.keywords| > 0
    ensures b == 0 || |cfg.keywords| * (b + 1) <= cfg.passwordLength - EnabledCount(cfg)
  {
    var room := cfg.passwordLength - EnabledCount(cfg) - |cfg.keywords|;
    if room < 0 then 0 else room / |cfg.keywords|
  }

  /** `generatePassword()` with the corrected budget. */
  function GeneratedReserved(cfg: Config, d: Draws, p: nat): (string, nat) {
    var u := if UsesKeywords(cfg) then KeywordComposed(cfg, ReservedBudget(cfg), d, p) else Unshuffled(cfg, d, p);
    Shuffled(u.0, d, u.1)
  }

  /** With the corrected budget, the keyword string and the coverage
      characters fit in the requested length, so nothing is cut off. */
  lemma ReservedBudgetFits(cfg: Config, d: Draws, p: nat)
    requires UsesKeywords(cfg) && cfg.passwordLength >= EnabledCount(cfg)
    ensures var ks := ProcessedKeywords(cfg.keywords, ReservedBudget(cfg), cfg.beautifyKeywords,
                                        cfg.includeSymbols, d, p);
      |ks.0 + CoverageChars(cfg, ks.0, d, ks.1).0| <= cfg.passwordLength
  {
    var ks := ProcessedKeywords(cfg.keywords, ReservedBudget(cfg), cfg.beautifyKeywords, cfg.includeSymbols, d, p);
    ProcessedKeywordsLength(cfg.keywords, ReservedBudget(cfg), cfg.beautifyKeywords, cfg.includeSymbols, d, p);
    CoverageCharsCover(cfg, ks.0, d, ks.1);
  }

  /** The keyword branch with the corrected budget, before the shuffle: a
      character of every selected class. */
  lemma ReservedKeywordBranchCovers(cfg: Config, d: Draws, p: nat)
    requires UsesKeywords(cfg) && cfg.passwordLength >= EnabledCount(cfg)
    ensures forall cl :: Enabled(cfg, cl) ==> Mentions(KeywordComposed(cfg, ReservedBudget(cfg), d, p).0, cl)
  {
    var ks := ProcessedKeywords(cfg.keywords, ReservedBudget(cfg), cfg.beautifyKeywords, cfg.includeSymbols, d, p);
    var required := CoverageChars(cfg, ks.0, d, ks.1);
    var pre := ks.0 + required.0;
    var padded := Padded(pre, cfg.passwordLength, CharsetOf(cfg), d, required.1).0;
    ReservedBudgetFits(cfg, d, p);
    CoverageCharsCover(cfg, ks.0, d, ks.1);
    forall cl | Enabled(cfg, cl) ensures Mentions(KeywordComposed(cfg, ReservedBudget(cfg), d, p).0, cl) {
      assert CharsetOf(cfg) != [];
      assert |padded| == cfg.passwordLength;
      assert Slice(padded, cfg.passwordLength) == padded;
      PrefixKeepsMentions(pre, padded, cl);
    }
  }

  /** What the coverage checks promise, for the corrected generator: once
      the length leaves room for one character per selected class, the
      password has a character of every selected class, in either branch. */
  lemma ReservedBudgetCovers(cfg: Config, d: Draws, p: nat)
    requires cfg.passwordLength >= EnabledCount(cfg)
    ensures forall cl :: Enabled(cfg, cl) ==> Mentions(GeneratedReserved(cfg, d, p).0, cl)
  {
    if UsesKeywords(cfg) {
      var u := KeywordComposed(cfg, ReservedBudget(cfg), d, p);
      ReservedKeywordBranchCovers(cfg, d, p);
      ShuffledPermutes(u.0, d, u.1);
      forall cl | Enabled(cfg, cl) ensures Mentions(GeneratedReserved(cfg, d, p).0, cl) {
        MentionsPermuted(u.0, Shuffled(u.0, d, u.1).0, cl);
      }
    } else {
      assert GeneratedReserved(cfg, d, p) == Generated(cfg, d, p);
      PlainBranchCoverage(cfg, d, p);
    }
  }
}
