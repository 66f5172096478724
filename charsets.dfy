/** The four character classes of the generator: their alphabets, the
    regular expressions that test for them, and the padding charset. */
module Charsets {

  const Uppercase: string := "ABCDEFGHIJKLMNOPQRSTUVWXYZ"
  const Lowercase: string := "abcdefghijklmnopqrstuvwxyz"
  const Digits: string := "0123456789"
  const Symbols: string := "!@#$%^&*()_+-=[]{}|;:,.<>?"

  datatype CharClass = Upper | Lower | Number | Symbol

  /** The literal alphabet the generator draws characters of `cl` from. */
  function Alphabet(cl: CharClass): string {
    match cl
    case Upper => Uppercase
    case Lower => Lowercase
    case Number => Digits
    case Symbol => Symbols
  }

  /** The regular expression the generator tests for `cl` with:
      `[A-Z]`, `[a-z]`, `[0-9]` and the bracketed symbol class. */
  predicate InClass(cl: CharClass, c: char) {
    match cl
    case Upper => 'A' <= c <= 'Z'
    case Lower => 'a' <= c <= 'z'
    case Number => '0' <= c <= '9'
    case Symbol =>
      c == '!' || c == '@' || c == '#' || c == '$' || c == '%' || c == '^' ||
      c == '&' || c == '*' || c == '(' || c == ')' || c == '_' || c == '+' ||
      c == '-' || c == '=' || c == '[' || c == ']' || c == '{' || c == '}' ||
      c == '|' || c == ';' || c == ':' || c == ',' || c == '.' || c == '<' ||
      c == '>' || c == '?'
  }

  /** `/[a-z]/i`: an ASCII letter of either case. */
  predicate IsLetter(c: char) {
    InClass(Upper, c) || InClass(Lower, c)
  }

  /** `re.test(s)` for the regular expression of `cl`. */
  predicate Mentions(s: string, cl: CharClass) {
    exists i :: 0 <= i < |s| && InClass(cl, s[i])
  }

  /** The `n` consecutive code points from `first` on, in order. */
  function CodeRange(first: char, n: nat): (r: string)
    requires first as int + n <= 0xD800
    ensures |r| == n
    ensures forall c :: c in r <==> first <= c && c as int < first as int + n
  {
    var r := seq(n, i requires 0 <= i < n => (first as int + i) as char);
    forall c | first <= c && c as int < first as int + n ensures c in r {
      assert r[c as int - first as int] == c;
    }
    r
  }

  lemma UppercaseMatches(c: char)
    ensures c in Uppercase <==> InClass(Upper, c)
  {
    assert Uppercase == CodeRange('A', 26);
  }

  lemma LowercaseMatches(c: char)
    ensures c in Lowercase <==> InClass(Lower, c)
  {
    assert Lowercase == CodeRange('a', 26);
  }

  lemma DigitsMatch(c: char)
    ensures c in Digits <==> InClass(Number, c)
  {
    assert Digits == CodeRange('0', 10);
  }

  lemma SymbolsMatch(c: char)
    ensures c in Symbols <==> InClass(Symbol, c)
  {
  }

  /** Each regular expression accepts exactly the characters of its alphabet. */
  lemma AlphabetMatchesClass(cl: CharClass, c: char)
    ensures c in Alphabet(cl) <==> InClass(cl, c)
  {
    match cl
    case Upper => UppercaseMatches(c);
    case Lower => LowercaseMatches(c);
    case Number => DigitsMatch(c);
    case Symbol => SymbolsMatch(c);
  }

  /** Two different classes never share a character. */
  lemma ClassesDisjoint(cl: CharClass, cl': CharClass, c: char)
    requires cl != cl'
    ensures !(InClass(cl, c) && InClass(cl', c))
  {
  }

  /** The padding charset: the enabled alphabets concatenated in the order
      upper, lower, numbers, symbols. */
  function Charset(upper: bool, lower: bool, numbers: bool, symbols: bool): (r: string)
    ensures forall c :: c in r <==>
      (upper && InClass(Upper, c)) || (lower && InClass(Lower, c)) ||
      (numbers && InClass(Number, c)) || (symbols && InClass(Symbol, c))
    ensures |r| == (if upper then 26 else 0) + (if lower then 26 else 0) +
                   (if numbers then 10 else 0) + (if symbols then 26 else 0)
    ensures r == [] <==> !upper && !lower && !numbers && !symbols
  {
    forall c ensures c in Uppercase <==> InClass(Upper, c) { UppercaseMatches(c); }
    forall c ensures c in Lowercase <==> InClass(Lower, c) { LowercaseMatches(c); }
    forall c ensures c in Digits <==> InClass(Number, c) { DigitsMatch(c); }
    forall c ensures c in Symbols <==> InClass(Symbol, c) { SymbolsMatch(c); }
    (if upper then Uppercase else "") + (if lower then Lowercase else "") +
    (if numbers then Digits else "") + (if symbols then Symbols else "")
  }
}
