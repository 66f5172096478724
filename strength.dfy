/** `updateStrengthMeter`: a heuristic score computed from the settings
    alone (never from a generated password), clamped to `[0, 100]`, and the
    label shown for it. */
module Strength {
  import opened Configuration

  datatype Level = Weak | Medium | Strong

  /** The unclamped score: half a point per unit of length, 5 points for
      each of upper case, lower case and digits, 10 for symbols, 5 per
      keyword when keywords are used, and 5 when beautification is on and
      keywords are enabled (whether or not any keyword is set). */
  function RawStrength(cfg: Config): real {
    cfg.passwordLength as real * 0.5
    + (if cfg.includeUppercase then 5.0 else 0.0)
    + (if cfg.includeLowercase then 5.0 else 0.0)
    + (if cfg.includeNumbers then 5.0 else 0.0)
    + (if cfg.includeSymbols then 10.0 else 0.0)
    + (if UsesKeywords(cfg) then |cfg.keywords| as real * 5.0 else 0.0)
    + (if cfg.beautifyKeywords && cfg.useKeywords then 5.0 else 0.0)
  }

  function RealMin(a: real, b: real): real { if a <= b then a else b }
  function RealMax(a: real, b: real): real { if a >= b then a else b }

  /** `Math.min(100, Math.max(0, strength))`: the raw score when it lies in
      `[0, 100]`, otherwise the nearer bound. */
  function StrengthPercentage(cfg: Config): (r: real)
    ensures 0.0 <= r <= 100.0
    ensures 0.0 <= RawStrength(cfg) <= 100.0 ==> r == RawStrength(cfg)
    ensures RawStrength(cfg) > 100.0 ==> r == 100.0
    ensures RawStrength(cfg) < 0.0 ==> r == 0.0
  {
    RealMin(100.0, RealMax(0.0, RawStrength(cfg)))
  }

  /** The label for a percentage: below 40 weak, below 70 medium, otherwise
      strong. */
  function LevelOf(pct: real): Level {
    if pct < 40.0 then Weak
    else if pct < 70.0 then Medium
    else Strong
  }

  function Rank(l: Level): nat {
    match l
    case Weak => 0
    case Medium => 1
    case Strong => 2
  }

  /** Each label covers exactly its band of percentages. */
  lemma LevelBands(pct: real)
    ensures LevelOf(pct) == Weak <==> pct < 40.0
    ensures LevelOf(pct) == Medium <==> 40.0 <= pct < 70.0
    ensures LevelOf(pct) == Strong <==> 70.0 <= pct
  {
  }

  /** A higher percentage never gets a lower label. */
  lemma LevelMonotone(a: real, b: real)
    requires a <= b
    ensures Rank(LevelOf(a)) <= Rank(LevelOf(b))
  {
  }

  /** `b` is `a` with the length not shorter, no option switched off and no
      keyword removed. */
  predicate AtLeastAsRich(a: Config, b: Config) {
    && a.passwordLength <= b.passwordLength
    && (a.includeUppercase ==> b.includeUppercase)
    && (a.includeLowercase ==> b.includeLowercase)
    && (a.includeNumbers ==> b.includeNumbers)
    && (a.includeSymbols ==> b.includeSymbols)
    && (a.useKeywords ==> b.useKeywords)
    && (a.beautifyKeywords ==> b.beautifyKeywords)
    && |a.keywords| <= |b.keywords|
  }

  /** The score is monotone: a longer password, more options or more
      keywords never lower it, before or after clamping. */
  lemma StrengthMonotone(a: Config, b: Config)
    requires AtLeastAsRich(a, b)
    ensures RawStrength(a) <= RawStrength(b)
    ensures StrengthPercentage(a) <= StrengthPercentage(b)
    ensures Rank(LevelOf(StrengthPercentage(a))) <= Rank(LevelOf(StrengthPercentage(b)))
  {
    LevelMonotone(StrengthPercentage(a), StrengthPercentage(b));
  }

  /** Each extra unit of length adds exactly half a point to the raw score,
      so an odd length gives a fractional score. */
  lemma LengthStep(cfg: Config)
    ensures RawStrength(cfg.(passwordLength := cfg.passwordLength + 1)) == RawStrength(cfg) + 0.5
  {
  }

  /** The beautification bonus is counted when keywords are enabled even if
      the keyword list is empty. */
  lemma BeautifyBonusWithoutKeywords(cfg: Config)
    requires cfg.useKeywords && cfg.keywords == []
    ensures RawStrength(cfg.(beautifyKeywords := true)) == RawStrength(cfg.(beautifyKeywords := false)) + 5.0
  {
  }

  /** Length 12 with every class but no keywords scores 31: weak. */
  lemma AllClassesNoKeywordsIsWeak()
    ensures var cfg := Config(12, true, true, true, true, false, false, []);
      StrengthPercentage(cfg) == 31.0 && LevelOf(StrengthPercentage(cfg)) == Weak
  {
  }

  /** `updateStrengthMeter()` for the settings `cfg`: the meter's percentage
      and the label it shows. */
  method UpdateStrengthMeter(cfg: Config) returns (strengthPercentage: real, level: Level)
    ensures strengthPercentage == StrengthPercentage(cfg)
    ensures 0.0 <= strengthPercentage <= 100.0
    ensures level == LevelOf(strengthPercentage)
  {
    var strength := 0.0;
    strength := strength + cfg.passwordLength as real * 0.5;
    if cfg.includeUppercase { strength := strength + 5.0; }
    if cfg.includeLowercase { strength := strength + 5.0; }
    if cfg.includeNumbers { strength := strength + 5.0; }
    if cfg.includeSymbols { strength := strength + 10.0; }
    if cfg.useKeywords && |cfg.keywords| > 0 { strength := strength + |cfg.keywords| as real * 5.0; }
    if cfg.beautifyKeywords && cfg.useKeywords { strength := strength + 5.0; }
    assert strength == RawStrength(cfg);
    strengthPercentage := RealMin(100.0, RealMax(0.0, strength));
    if strengthPercentage < 40.0 {
      level := Weak;
    } else if strengthPercentage < 70.0 {
      level := Medium;
    } else {
      level := Strong;
    }
  }
}
