# Aesthetic password generator: a verified model of the generator core

This project models the password-construction and scoring logic of the
Aesthetic Password Generator web page (`script.js`):

- the four character classes and the padding charset built from them;
- `getRandomChar`;
- `beautifyKeyword`: leet substitutions, random re-casing, optional trailing symbol;
- `generatePassword`, with its keyword branch and its plain branch, both ending in `shuffleString`;
- the strength meter's score and label;
- the settings maintenance: the defaults, the option handlers,
  `ensureAtLeastOneChecked`, the preset table of `setPreset`, and the
  parsing of the keyword field.

`Math.random()` is injected. A `Randomness.RandomSource` object hands out the
values of a draw sequence `sample: nat -> Unit` (reals in `[0, 1)`) in order.
Every imperative operation that draws is a `method` with `modifies rng`. Each
one is proved equal to a specification function that takes the draw sequence
and a start position and returns the value and the next position. The
properties are lemmas about those functions, quantified over every draw
sequence.

Modules, one per file:

| module | file | what it holds |
|---|---|---|
| `Charsets` | charsets.dfy | alphabets, the class regular expressions, the charset |
| `JsStrings` | jsstrings.dfy | `slice(0, n)`, `trim`, `split`, `join`, ASCII case mapping |
| `Randomness` | randomness.dfy | draws, `getRandomChar` |
| `Beautify` | beautify.dfy | `beautifyKeyword` |
| `Shuffle` | shuffle.dfy | `shuffleString` (in place on an array) |
| `Configuration` | config.dfy | the settings value read by generation and scoring |
| `Composer` | composer.dfy | `generatePassword` |
| `KeywordReserve` | reserve.dfy | the truncation defect and a corrected budget |
| `Strength` | strength.dfy | `updateStrengthMeter` |
| `Keywords` | keywords.dfy | keyword-field parsing |
| `AppState` | settings.dfy | the mutable settings, handlers, presets |

Facts about the code that shape the model:

- The symbol alphabet at `script.js:26` has 26 characters.
- `0.5 * passwordLength` makes the score non-integral for odd lengths, so the score is modelled as a `real`.
- With the three default keywords the strong preset scores 54 and is labelled Medium (`script.js:188-196`, `350-357`).

## Model

| member | source | states |
|---|---|---|
| Charsets.InClass | script.js:280-283 | defines the four class tests `/[A-Z]/`, `/[a-z]/`, `/[0-9]/` and the bracketed symbol class on one character; no contract of its own, its properties are in `AlphabetMatchesClass` and `ClassesDisjoint` |
| Charsets.Mentions | script.js:280-283 | defines `re.test(password)`: some character of the string is in the class; no contract of its own, its properties are in `Composer.MentionsAppend`, `Composer.MentionsPermuted` and `KeywordReserve.PrefixKeepsMentions` |
| Charsets.IsLetter | script.js:238 | defines `/[a-z]/i.test(char)`: an ASCII letter of either case; no contract of its own, its properties are in `Beautify.RecasedPointwise` |
| Charsets.Charset | script.js:255-262 | the charset holds exactly the characters of the selected classes; its length is 26/26/10/26 per selected class; it is empty iff no class is selected |
| Charsets.AlphabetMatchesClass | script.js:23-26 | a character is in a class's alphabet iff the class's regular expression accepts it |
| Charsets.UppercaseMatches | script.js:23 | `c` is in `uppercaseChars` iff `[A-Z]` accepts it |
| Charsets.LowercaseMatches | script.js:24 | `c` is in `lowercaseChars` iff `[a-z]` accepts it |
| Charsets.DigitsMatch | script.js:25 | `c` is in `numberChars` iff `[0-9]` accepts it |
| Charsets.SymbolsMatch | script.js:283 | `c` is in `symbolChars` iff the bracketed symbol class of the coverage check accepts it |
| Charsets.ClassesDisjoint | script.js:23-26 | no character belongs to two classes |
| Randomness.ScaledIndex | script.js:317 | `Math.floor(x * n)` is an index below `n` for every draw `x` in `[0, 1)` |
| Randomness.ScaledIndexIsFloor | script.js:317 | the index is the whole part of `x * n` |
| Randomness.RandomChar | script.js:316-318 | `getRandomChar` on a non-empty string gives one character of it, and the empty string on an empty one |
| Randomness.RandomSource.constructor | script.js:317 | a fresh source of draws starts at the first draw of its sequence |
| Randomness.RandomSource.Next | script.js:317 | one call of `Math.random()` returns the next draw and advances the position by one |
| Randomness.GetRandomChar | script.js:316-318 | consumes exactly one draw; returns the character that draw selects |
| JsStrings.IsWhitespace | script.js:120-121 | defines what `trim()` removes: the ECMAScript white space and line terminator characters; no contract of its own, its properties are in `TrimStart`, `TrimEnd` and `Trim` |
| JsStrings.ToUpper | script.js:239 | defines `toUpperCase()` on ASCII letters; no contract of its own, its properties are in `Beautify.RecasedPointwise` |
| JsStrings.ToLower | script.js:232-239 | defines `toLowerCase()` on ASCII letters, also used for the case-insensitive `gi` match; no contract of its own, its properties are in `Beautify.SubstitutedPointwise` and `Beautify.RecasedPointwise` |
| JsStrings.Slice | script.js:271 | `slice(0, end)` is a prefix; its length is `min(end, |s|)`, or `max(|s| + end, 0)` for a negative end |
| JsStrings.TrimStart | script.js:120 | removes exactly the leading whitespace |
| JsStrings.TrimEnd | script.js:120 | removes exactly the trailing whitespace |
| JsStrings.Trim | script.js:120-121 | `trim()` gives the infix left once the whitespace at both ends is removed; it neither starts nor ends with whitespace |
| JsStrings.TrimIdempotent | script.js:120-121 | trimming a trimmed string changes nothing |
| JsStrings.Split | script.js:121 | `split(',')` gives at least one piece, and no piece holds a comma |
| JsStrings.JoinSplit | script.js:121 | joining the pieces with the separator gives back the input |
| Keywords.TrimAll | script.js:121 | defines `map(k => k.trim())`: each piece trimmed, in place; no contract of its own, its properties are in `PiecesAreTrimmed` |
| Keywords.Pieces | script.js:120-121 | defines the trimmed input split on commas with each piece trimmed; no contract of its own, its properties are in `PiecesAreTrimmed`, `ParseKeywordsInOrder` and `ParseKeywordsEntries` |
| Keywords.NonEmpty | script.js:121 | `filter(k => k)` keeps only non-empty strings |
| Keywords.NonEmptyIsSubsequence | script.js:121 | the filtered list keeps the order of the pieces |
| Keywords.NonEmptyKeepsAll | script.js:121 | every non-empty piece survives the filter |
| Keywords.ParseKeywords | script.js:119-121 | at most three keywords are kept |
| Keywords.ParseKeywordsLength | script.js:121 | exactly `min(3, number of non-empty pieces)` keywords are kept |
| Keywords.ParseKeywordsKeepsFirst | script.js:121 | the keywords are the first non-empty trimmed pieces, in order |
| Keywords.ParseKeywordsInOrder | script.js:121 | the keywords are a subsequence of the trimmed comma-separated pieces |
| Keywords.ParseKeywordsEntries | script.js:120-121 | every keyword is non-empty, already trimmed and free of commas |
| Keywords.PiecesAreTrimmed | script.js:121 | every trimmed piece is trimmed and comma-free |
| Keywords.TrimKeepsAbsent | script.js:121 | trimming never introduces a character |
| Beautify.ReplaceAll | script.js:232 | defines `replace(new RegExp(t.from, 'gi'), t.to)`: every character whose ASCII lower case is the letter becomes the replacement; no contract of its own, its properties are in `SubstitutedPointwise` |
| Beautify.RecaseChar | script.js:238-239 | defines one step of the re-casing map: a first draw above 0.7 on an ASCII letter draws again and picks upper (above 0.5) or lower case; no contract of its own, its properties are in `Recased` and `RecasedPointwise` |
| Beautify.Beautified | script.js:216-251 | defines `beautifyKeyword` with the globals as parameters and the position after its draws; no contract of its own, its properties are in `BeautifiedShape` |
| Beautify.Substituted | script.js:230-234 | the coin-flip loop keeps the length and consumes one draw per substitution |
| Beautify.SubstitutedPointwise | script.js:230-234 | after the flips, each character is the original or the replacement of a substitution whose letter it is, either case |
| Beautify.Recased | script.js:237-242 | re-casing keeps the length and consumes between `|s|` and `2|s|` draws in total |
| Beautify.RecasedPointwise | script.js:237-242 | re-casing changes at most the case of ASCII letters |
| Beautify.TrailingSymbol | script.js:245-247 | the trailing addition is empty or one symbol, and a symbol only when symbols are selected |
| Beautify.BeautifiedShape | script.js:216-251 | empty keyword gives `''`; with beautification off the keyword is unchanged; otherwise each position is a leet variant of the keyword's character, followed at most by one symbol, and only when symbols are selected |
| Beautify.ApplySubstitutions | script.js:230-234 | the substitution loop computes `Substituted` and consumes its draws |
| Beautify.RecaseLetters | script.js:237-242 | the re-casing map computes `Recased` |
| Beautify.MaybeSymbol | script.js:245-247 | the guarded append computes `TrailingSymbol`; it draws only when symbols are selected |
| Beautify.BeautifyKeyword | script.js:216-251 | the method computes `Beautified` and advances the draws exactly as it does |
| Shuffle.Swap | script.js:325 | defines the destructuring swap of two positions; no contract of its own, its properties are in `SwapPermutes` and `SwapStep` |
| Shuffle.Shuffled | script.js:321-328 | defines `shuffleString` and the position after its draws; no contract of its own, its properties are in `ShuffledPermutes` |
| Shuffle.ShuffleFrom | script.js:323-326 | the swap loop from index `i` down consumes exactly `i` draws |
| Shuffle.SwapPermutes | script.js:325 | one swap keeps the length and the multiset of characters |
| Shuffle.ShuffleFromPermutes | script.js:323-326 | the whole swap loop keeps the length and the multiset |
| Shuffle.ShuffledPermutes | script.js:321-328 | `shuffleString` returns a permutation of its input for every draw sequence: same length, same multiset, same characters |
| Shuffle.SwapStep | script.js:325 | the destructuring swap of two array cells is `Swap` on the contents |
| Shuffle.ShuffleInPlace | script.js:323-326 | the in-place loop leaves the array holding `Shuffled` of its old contents |
| Shuffle.ShuffleString | script.js:321-328 | the method computes `Shuffled`, and its result is a permutation of its input |
| Configuration.HasSource | script.js:139 | defines the negation of the condition of `ensureAtLeastOneChecked`: some class or keywords selected; no contract of its own, its properties are in `AppState.WithSource` and `AppState.ClearEverySource` |
| Configuration.UsesKeywords | script.js:265 | defines the branch condition `useKeywords && keywords.length > 0`; no contract of its own, its properties are in `Composer.PlainBranchLength` and `Composer.KeywordBranchLength` |
| Composer.KeywordBudget | script.js:267 | the budget is the floor of `(L - 2k) / k` |
| Composer.ProcessedKeywords | script.js:266-273 | defines the keyword string, each keyword sliced to the budget and beautified in order; no contract of its own, its properties are in `ProcessedKeywordsSources` and `KeywordReserve.ProcessedKeywordsLength` |
| Composer.FourPicks | script.js:296-300 | defines the four guarded pushes in the order upper, lower, digits, symbols; no contract of its own, its properties are in `FourPicksShape` |
| Composer.CoverageChars | script.js:279-285 | defines the coverage characters: one pick per selected class the keyword string lacks; no contract of its own, its properties are in `CoverageCharsCover` |
| Composer.SeedChars | script.js:296-300 | defines the plain branch's required characters, one pick per selected class; no contract of its own, its properties are in `SeedCharsCover` |
| Composer.KeywordComposed | script.js:265-293 | defines the keyword branch before the shuffle for a given budget; no contract of its own, its properties are in `KeywordBranchLength`, `KeywordBranchUnshuffled` and `KeywordReserve.ReservedKeywordBranchCovers` |
| Composer.Unshuffled | script.js:254-307 | defines the password before the shuffle, in either branch; no contract of its own, its properties are in `PlainBranchUnshuffled`, `KeywordBranchUnshuffled` and `GeneratedPermutesUnshuffled` |
| Composer.Generated | script.js:254-313 | defines `generatePassword()` and the position after its draws; no contract of its own, its properties are in `PlainBranchLength`, `PlainBranchCoverage`, `KeywordBranchLength` and `GeneratedCharacters` |
| Composer.Pick | script.js:280-283 | a wanted class gives one character of that class and consumes one draw; otherwise nothing |
| Composer.Padded | script.js:288-290 | with a non-empty charset the password grows to `max(|password|, L)`; with an empty one it is left alone; the prefix is kept and every added character is from the charset |
| Composer.FourPicksShape | script.js:296-300 | the four checks draw exactly one character of each wanted class, all from the charset of the wanted classes |
| Composer.PicksConcatenated | script.js:302 | joining the four picks gives one character per wanted class |
| Composer.SeedCharsCover | script.js:296-302 | the plain branch's required characters are one per selected class, all from the charset |
| Composer.CoverageCharsCover | script.js:279-285 | after the coverage characters, the keyword string plus them holds every selected class; there are at most as many of them as selected classes, all from the charset |
| Composer.CoverageFromPicks | script.js:279-285 | the draw-independent part of `CoverageCharsCover` |
| Composer.MentionsAppend | script.js:280-283 | a class occurs in `a + b` iff it occurs in `a` or in `b` |
| Composer.MentionsPermuted | script.js:310 | a class occurring in a string occurs in every permutation of it |
| Composer.ProcessedKeywordsSources | script.js:270-273 | every character of the keyword string is a leet variant of some keyword character, or a symbol appended only when symbols are selected |
| Composer.GeneratedPermutesUnshuffled | script.js:310 | the password is a permutation of the string built before the shuffle |
| Composer.PlainBranchLength | script.js:294-307 | plain branch: with a selected class the length is `max(L, number of selected classes)`; with none the password is empty |
| Composer.PlainBranchUnshuffled | script.js:294-307 | plain branch before the shuffle: every selected class occurs and every character is from the charset |
| Composer.ExtendedKeeps | script.js:304-306 | padding by charset characters keeps coverage and charset membership |
| Composer.PlainBranchCoverage | script.js:294-310 | plain branch: the password holds a character of every selected class and only charset characters |
| Composer.KeywordBranchLength | script.js:288-293 | keyword branch: length at most `L`, and exactly `L` when the charset is non-empty |
| Composer.KeywordBranchCoverageBeforeTruncation | script.js:279-285 | keyword branch: before the truncation, every selected class occurs |
| Composer.KeywordBranchUnshuffled | script.js:265-293 | keyword branch before the shuffle: every character is from the charset or comes from a keyword |
| Composer.GeneratedCharacters | script.js:254-313 | every password character is from a selected class or, in the keyword branch, comes from a keyword |
| Composer.Fill | script.js:288-290 | the padding loop computes `Padded` |
| Composer.KeywordString | script.js:266-273 | the keyword loop computes `ProcessedKeywords` |
| Composer.PushRequired | script.js:296-302 | the four guarded pushes compute `FourPicks` |
| Composer.RequiredForCoverage | script.js:279-285 | the coverage checks against the keyword string compute `CoverageChars` |
| Composer.ComposeWithKeywords | script.js:265-293 | the keyword branch computes `Unshuffled` |
| Composer.ComposePlain | script.js:294-307 | the plain branch computes `Unshuffled` |
| Composer.BuildCharset | script.js:255-262 | the four guarded appends build `CharsetOf` |
| Composer.GeneratePassword | script.js:254-313 | `generatePassword()` computes `Generated` and consumes the draws it does |
| KeywordReserve.BeautifiedSliceLength | script.js:271 | a sliced, beautified keyword is at most one longer than a non-negative budget, and empty for budget 0 |
| KeywordReserve.ProcessedKeywordsLength | script.js:266-273 | the keyword string has at most `k * (budget + 1)` characters, and none for budget 0 |
| KeywordReserve.PrefixKeepsMentions | script.js:293 | a class occurring in a prefix occurs in the whole string |
| KeywordReserve.OverfullKeywordString | script.js:267-273 | for length 8 and keyword "abcdefgh" the keyword string is "abcdef" |
| KeywordReserve.OverfullKeywordClasses | script.js:280-283 | "abcdef" has lower case only |
| KeywordReserve.OverfullCoverage | script.js:279-285 | three coverage characters follow "abcdef": upper case, then a digit, then a symbol |
| KeywordReserve.NoSymbolAmong | script.js:293 | the first eight characters hold no symbol |
| KeywordReserve.TruncationDropsSymbol | script.js:293 | as written: symbols are selected, yet for every draw sequence the password holds no symbol |
| KeywordReserve.ReservedBudget | script.js:267 | corrected budget: zero, or small enough that each keyword plus one symbol, and one character per selected class, fit in `L` |
| KeywordReserve.GeneratedReserved | script.js:254-313 | defines the corrected generator, with `ReservedBudget` in place of the budget at line 267; no contract of its own, its properties are in `ReservedBudgetCovers` |
| KeywordReserve.ReservedBudgetFits | script.js:267-285 | with the corrected budget, keyword string plus coverage characters fit in `L` |
| KeywordReserve.ReservedKeywordBranchCovers | script.js:265-293 | with the corrected budget, every selected class survives the truncation |
| KeywordReserve.ReservedBudgetCovers | script.js:254-313 | corrected generator: whenever `L` is at least the number of selected classes, the password holds every selected class |
| Strength.RawStrength | script.js:332-341 | defines the unclamped score; no contract of its own, its properties are in `StrengthMonotone`, `LengthStep` and `BeautifyBonusWithoutKeywords` |
| Strength.LevelOf | script.js:350-362 | defines the label for a percentage; no contract of its own, its properties are in `LevelBands` and `LevelMonotone` |
| Strength.StrengthPercentage | script.js:344 | the percentage is in `[0, 100]`: the raw score when in range, otherwise the nearer bound |
| Strength.LevelBands | script.js:350-362 | Weak iff below 40, Medium iff in `[40, 70)`, Strong iff 70 or more |
| Strength.LevelMonotone | script.js:350-362 | a higher percentage never gets a lower label |
| Strength.StrengthMonotone | script.js:332-344 | longer length, more options or more keywords never lower the score or the label |
| Strength.LengthStep | script.js:335 | each unit of length adds exactly half a point |
| Strength.BeautifyBonusWithoutKeywords | script.js:341 | the beautify bonus counts with keywords on and the list empty |
| Strength.AllClassesNoKeywordsIsWeak | script.js:332-352 | length 12, every class, no keywords, scores 31: Weak |
| Strength.UpdateStrengthMeter | script.js:331-362 | the accumulation computes `StrengthPercentage` and the label for it |
| AppState.PresetTable | script.js:167-198 | defines the three profiles of the `switch` and no profile for any other name; no contract of its own, its properties are in `WithPreset`, `PresetsHaveSources` and `PresetScores` |
| AppState.WithPreset | script.js:159-198 | a known preset sets exactly its length and flags and keeps the keywords; an unknown name changes nothing |
| AppState.WithSource | script.js:138-143 | afterwards a source is selected; if one already was, nothing changes; otherwise only lower case is switched on |
| AppState.WithClass | script.js:82-104 | a class box sets its own flag and no other field |
| AppState.PresetsHaveSources | script.js:167-198 | every preset selects a source and a non-empty charset |
| AppState.PresetScores | script.js:167-198 | from the defaults, with three keywords, the easy, medium and strong presets score 19 (Weak), 51 (Medium) and 54 (Medium) |
| AppState.Settings.constructor | script.js:29-37 | the defaults: length 12, every option on, Ocean/Moon/Tiger, preset medium |
| AppState.Settings.EnsureAtLeastOneChecked | script.js:138-143 | the settings become `WithSource` of the old ones |
| AppState.Settings.SetLength | script.js:75-79 | only the length changes |
| AppState.Settings.SetClass | script.js:82-104 | the class flag takes the box's state, then a source is restored |
| AppState.Settings.SetUseKeywords | script.js:106-111 | as written: only `useKeywords` changes, and no source is restored |
| AppState.Settings.SetUseKeywordsGuarded | script.js:106-111 | corrected: as the class handlers do, a source is restored afterwards |
| AppState.Settings.SetBeautifyKeywords | script.js:113-116 | only `beautifyKeywords` changes |
| AppState.Settings.SetKeywordsInput | script.js:119-124 | the keywords become the parse of the field; nothing else changes |
| AppState.Settings.SetKeywords | script.js:121 | the parsed keywords are stored; nothing else changes |
| AppState.Settings.SetPreset | script.js:159-198 | the name is recorded and the settings become `WithPreset` of the old ones |
| AppState.ClearEverySource | script.js:82-111 | with the handlers as written, every source can be switched off, and then every generated password is empty |

## Left out

- The DOM, the event wiring, the checkbox and slider syncing, `updateKeywordsDisplay`, the matrix background, the display animations, the clipboard and page initialisation. They are presentation only; the handlers are modelled by their effect on the settings.
- `Math.random()`: modelled as an arbitrary sequence of reals in `[0, 1)`. The properties hold for every sequence. Uniformity and an unbiased shuffle are probabilistic claims and are not stated.
- Floating point: draws and the score are exact reals. Rounding in `Math.random() * n` is not modelled.
- `parseInt` on the slider value: `SetLength` takes the integer directly; `NaN` is not modelled.
- JavaScript strings are UTF-16 code-unit sequences; the model uses Unicode scalar values (`char`). Surrogate pairs are not modelled.
- `toUpperCase` / `toLowerCase` are modelled on ASCII only. They are only applied to ASCII letters, and the `gi` substitutions match only the ASCII forms of `a`, `e`, `i`, `o`, `s`.
- Composer.KeywordBranchLength: requires a non-negative length, because `slice(0, L)` with `L < 0` keeps all but `-L` characters.
- KeywordReserve.ReservedBudgetCovers: states coverage for the corrected budget only. For the budget as written, the truncation can cut coverage characters, as shown under Findings.

## Findings

| source | as written | input that shows it | evidently intended | confidence | as-written member | corrected member |
|---|---|---|---|---|---|---|
| script.js:106-111 | the keyword checkbox's handler does not call `ensureAtLeastOneChecked`, unlike the four class handlers | start from the defaults; clear upper, lower, numbers and symbols (keywords on, so nothing is forced back); then clear keywords: no source is left and every generated password is empty | at least one source stays selected after every handler, as `ensureAtLeastOneChecked` does | medium, not executed | AppState.ClearEverySource | AppState.Settings.SetUseKeywordsGuarded |
| script.js:267-293 | the budget reserves two characters per keyword, but beautification can add one per keyword and up to four coverage characters follow, so `slice(0, passwordLength)` can cut the coverage characters the comment at line 278 promises | length 8, every class, keywords on, beautify off, keyword "abcdefgh": budget 6, "abcdef" plus an upper-case letter, a digit and a symbol is 9 characters, truncated to 8; for every draw sequence the password has no symbol | every selected class occurs once the length leaves room for one character per selected class | medium, not executed | KeywordReserve.TruncationDropsSymbol | KeywordReserve.ReservedBudgetCovers |
