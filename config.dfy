/** The generation settings, as one value read at the moment a password is
    generated or a strength is computed. */
module Configuration {
  import opened Charsets

  datatype Config = Config(
    passwordLength: int,
    includeUppercase: bool,
    includeLowercase: bool,
    includeNumbers: bool,
    includeSymbols: bool,
    useKeywords: bool,
    beautifyKeywords: bool,
    keywords: seq<string>)

  /** Whether the character class `cl` is selected. */
  function Enabled(cfg: Config, cl: CharClass): bool {
    match cl
    case Upper => cfg.includeUppercase
    case Lower => cfg.includeLowercase
    case Number => cfg.includeNumbers
    case Symbol => cfg.includeSymbols
  }

  /** How many of the four classes are selected. */
  function EnabledCount(cfg: Config): nat {
    (if cfg.includeUppercase then 1 else 0) + (if cfg.includeLowercase then 1 else 0) +
    (if cfg.includeNumbers then 1 else 0) + (if cfg.includeSymbols then 1 else 0)
  }

  /** The padding charset of the selected classes. */
  function CharsetOf(cfg: Config): string {
    Charset(cfg.includeUppercase, cfg.includeLowercase, cfg.includeNumbers, cfg.includeSymbols)
  }

  /** At least one source of characters is selected: a class, or keywords. */
  predicate HasSource(cfg: Config) {
    cfg.includeUppercase || cfg.includeLowercase || cfg.includeNumbers || cfg.includeSymbols || cfg.useKeywords
  }

  /** Whether generation takes the keyword branch. */
  predicate UsesKeywords(cfg: Config) {
    cfg.useKeywords && |cfg.keywords| > 0
  }
}
