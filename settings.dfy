/** The page's mutable settings: the defaults, the handlers of the length
    slider, the option checkboxes and the keyword field, the rule that keeps
    one source of characters selected, and the presets. */
module AppState {
  import opened Charsets
  import opened Configuration
  import opened Keywords
  import opened Composer
  import opened Strength

  datatype Option<T> = None | Some(value: T)

  /** The generation fields a preset sets. */
  datatype Profile = Profile(
    passwordLength: int,
    includeUppercase: bool,
    includeLowercase: bool,
    includeNumbers: bool,
    includeSymbols: bool,
    useKeywords: bool,
    beautifyKeywords: bool)

  /** The `switch` of `setPreset`: three named profiles; any other name has
      none. */
  function PresetTable(name: string): Option<Profile> {
    if name == "easy" then Some(Profile(8, true, true, true, false, false, false))
    else if name == "medium" then Some(Profile(12, true, true, true, true, true, true))
    else if name == "strong" then Some(Profile(18, true, true, true, true, true, true))
    else None
  }

  /** The settings after `setPreset(name)`: a known preset overwrites the
      length and every flag; nothing else, and the keywords never, changes. */
  function WithPreset(cfg: Config, name: string): (r: Config)
    ensures r.keywords == cfg.keywords
    ensures PresetTable(name).None? ==> r == cfg
    ensures PresetTable(name).Some? ==>
      var pr := PresetTable(name).value;
      && r.passwordLength == pr.passwordLength
      && r.includeUppercase == pr.includeUppercase && r.includeLowercase == pr.includeLowercase
      && r.includeNumbers == pr.includeNumbers && r.includeSymbols == pr.includeSymbols
      && r.useKeywords == pr.useKeywords && r.beautifyKeywords == pr.beautifyKeywords
  {
    match PresetTable(name)
    case None => cfg
    case Some(pr) =>
      Config(pr.passwordLength, pr.includeUppercase, pr.includeLowercase, pr.includeNumbers,
             pr.includeSymbols, pr.useKeywords, pr.beautifyKeywords, cfg.keywords)
  }

  /** `ensureAtLeastOneChecked` on a value: with no source selected, lower
      case is switched on; otherwise nothing changes. */
  function WithSource(cfg: Config): (r: Config)
    ensures HasSource(r)
    ensures HasSource(cfg) ==> r == cfg
    ensures !HasSource(cfg) ==> r == cfg.(includeLowercase := true)
  {
    if !cfg.includeUppercase && !cfg.includeLowercase && !cfg.includeNumbers && !cfg.includeSymbols
       && !cfg.useKeywords
    then cfg.(includeLowercase := true)
    else cfg
  }

  /** `cfg` with the checkbox of class `cl` set to `checked`. */
  function WithClass(cfg: Config, cl: CharClass, checked: bool): (r: Config)
    ensures Enabled(r, cl) == checked
    ensures forall other :: other != cl ==> Enabled(r, other) == Enabled(cfg, other)
    ensures r.passwordLength == cfg.passwordLength && r.useKeywords == cfg.useKeywords
    ensures r.beautifyKeywords == cfg.beautifyKeywords && r.keywords == cfg.keywords
  {
    match cl
    case Upper => cfg.(includeUppercase := checked)
    case Lower => cfg.(includeLowercase := checked)
    case Number => cfg.(includeNumbers := checked)
    case Symbol => cfg.(includeSymbols := checked)
  }

  /** Every preset selects a source of characters and a non-empty charset. */
  lemma PresetsHaveSources(cfg: Config, name: string)
    requires PresetTable(name).Some?
    ensures HasSource(WithPreset(cfg, name)) && CharsetOf(WithPreset(cfg, name)) != []
  {
  }

  /** The scores of the presets with three keywords: easy 19 (weak), medium
      51 (medium) and strong 54, which is still medium. */
  lemma PresetScores()
    ensures var kws := ["Ocean", "Moon", "Tiger"];
      var base := Config(12, true, true, true, true, true, true, kws);
      && StrengthPercentage(WithPreset(base, "easy")) == 19.0
      && LevelOf(StrengthPercentage(WithPreset(base, "easy"))) == Weak
      && StrengthPercentage(WithPreset(base, "medium")) == 51.0
      && LevelOf(StrengthPercentage(WithPreset(base, "medium"))) == Medium
      && StrengthPercentage(WithPreset(base, "strong")) == 54.0
      && LevelOf(StrengthPercentage(WithPreset(base, "strong"))) == Medium
  {
  }

  class Settings {
    var passwordLength: int
    var includeUppercase: bool
    var includeLowercase: bool
    var includeNumbers: bool
    var includeSymbols: bool
    var useKeywords: bool
    var beautifyKeywords: bool
    var keywords: seq<string>
    var currentPreset: string

    /** The settings as the generator and the strength meter read them. */
    function Snapshot(): Config
      reads this
    {
      Config(passwordLength, includeUppercase, includeLowercase, includeNumbers, includeSymbols,
             useKeywords, beautifyKeywords, keywords)
    }

    /** The default settings: length 12, every option on, three keywords,
        the medium preset. */
    constructor ()
      ensures Snapshot() == Config(12, true, true, true, true, true, true, ["Ocean", "Moon", "Tiger"])
      ensures currentPreset == "medium"
    {
      passwordLength := 12;
      includeUppercase := true;
      includeLowercase := true;
      includeNumbers := true;
      includeSymbols := true;
      useKeywords := true;
      beautifyKeywords := true;
      keywords := ["Ocean", "Moon", "Tiger"];
      currentPreset := "medium";
    }

    /** `ensureAtLeastOneChecked()`: afterwards a source is selected, and
        only lower case can have been switched on. */
    method EnsureAtLeastOneChecked()
      modifies this
      ensures Snapshot() == WithSource(old(Snapshot()))
      ensures HasSource(Snapshot())
      ensures currentPreset == old(currentPreset)
    {
      if !includeUppercase && !includeLowercase && !includeNumbers && !includeSymbols && !useKeywords {
        includeLowercase := true;
      }
    }

    /** The length slider's handler. */
    method SetLength(length: int)
      modifies this
      ensures Snapshot() == old(Snapshot()).(passwordLength := length)
      ensures currentPreset == old(currentPreset)
    {
      passwordLength := length;
    }

    /** The handler of a class checkbox: the flag takes the box's state,
        then a source is restored if none is left. */
    method SetClass(cl: CharClass, checked: bool)
      modifies this
      ensures Snapshot() == WithSource(WithClass(old(Snapshot()), cl, checked))
      ensures HasSource(Snapshot())
      ensures currentPreset == old(currentPreset)
    {
      match cl {
        case Upper => includeUppercase := checked;
        case Lower => includeLowercase := checked;
        case Number => includeNumbers := checked;
        case Symbol => includeSymbols := checked;
      }
      EnsureAtLeastOneChecked();
    }

    /** The keyword checkbox's handler, as written: it does not restore a
        source. */
    method SetUseKeywords(checked: bool)
      modifies this
      ensures Snapshot() == old(Snapshot()).(useKeywords := checked)
      ensures currentPreset == old(currentPreset)
    {
      useKeywords := checked;
    }

    /** The keyword checkbox's handler with the check the class handlers
        make. */
    method SetUseKeywordsGuarded(checked: bool)
      modifies this
      ensures Snapshot() == WithSource(old(Snapshot()).(useKeywords := checked))
      ensures HasSource(Snapshot())
      ensures currentPreset == old(currentPreset)
    {
      useKeywords := checked;
      EnsureAtLeastOneChecked();
    }

    /** The beautify checkbox's handler. */
    method SetBeautifyKeywords(checked: bool)
      modifies this
      ensures Snapshot() == old(Snapshot()).(beautifyKeywords := checked)
      ensures currentPreset == old(currentPreset)
    {
      beautifyKeywords := checked;
    }

    /** The keyword field's handler: the keywords become what the field
        parses to. */
    method SetKeywordsInput(input: string)
      modifies this
      ensures keywords == ParseKeywords(input)
      ensures Snapshot() == old(Snapshot()).(keywords := keywords)
      ensures currentPreset == old(currentPreset)
    {
      var parsed := ParseKeywords(input);
      SetKeywords(parsed);
    }

    /** The assignment of the parsed keywords. */
    method SetKeywords(parsed: seq<string>)
      modifies this
      ensures keywords == parsed
      ensures Snapshot() == old(Snapshot()).(keywords := parsed)
      ensures currentPreset == old(currentPreset)
    {
      keywords := parsed;
    }

    /** `setPreset(preset)`: the name is recorded, a known preset overwrites
        the length and flags, the keywords are kept. */
    method SetPreset(preset: string)
      modifies this
      ensures currentPreset == preset
      ensures Snapshot() == WithPreset(old(Snapshot()), preset)
    {
      currentPreset := preset;
      if preset == "easy" {
        passwordLength := 8;
        includeUppercase := true;
        includeLowercase := true;
        includeNumbers := true;
        includeSymbols := false;
        useKeywords := false;
        beautifyKeywords := false;
      } else if preset == "medium" {
        passwordLength := 12;
        includeUppercase := true;
        includeLowercase := true;
        includeNumbers := true;
        includeSymbols := true;
        useKeywords := true;
        beautifyKeywords := true;
      } else if preset == "strong" {
        passwordLength := 18;
        includeUppercase := true;
        includeLowercase := true;
        includeNumbers := true;
        includeSymbols := true;
        useKeywords := true;
        beautifyKeywords := true;
      }
    }
  }

  /** With the handlers as written, every source can be switched off: clear
      the four class boxes while keywords are on (no class is then forced
      back), then clear the keyword box. Every password generated from
      these settings is empty. */
  method ClearEverySource() returns (s: Settings)
    ensures !HasSource(s.Snapshot())
    ensures forall d, p :: Generated(s.Snapshot(), d, p).0 == []
  {
    s := new Settings();
    s.SetClass(Upper, false);
    s.SetClass(Lower, false);
    s.SetClass(Number, false);
    s.SetClass(Symbol, false);
    s.SetUseKeywords(false);
    forall d, p ensures Generated(s.Snapshot(), d, p).0 == [] {
      PlainBranchLength(s.Snapshot(), d, p);
    }
  }
}
