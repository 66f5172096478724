/** Parsing of the keyword field: the input is trimmed, split on commas,
    each piece trimmed, empty pieces dropped, and the first three kept. */
module Keywords {
  import opened JsStrings

  const MaxKeywords := 3

  /** `a` is `b` with some elements left out, the rest in their order. */
  predicate IsSubsequence(a: seq<string>, b: seq<string>)
    decreases |b|
  {
    a == [] ||
    (b != [] && ((a[0] == b[0] && IsSubsequence(a[1..], b[1..])) || IsSubsequence(a, b[1..])))
  }

  /** `parts.map(k => k.trim())`. */
  function TrimAll(parts: seq<string>): seq<string> {
    seq(|parts|, k requires 0 <= k < |parts| => Trim(parts[k]))
  }

  /** `parts.filter(k => k)`: the non-empty strings, in order, all of them. */
  function NonEmpty(parts: seq<string>): (r: seq<string>)
    ensures forall k :: 0 <= k < |r| ==> r[k] != []
  {
    if parts == [] then []
    else if parts[0] == [] then NonEmpty(parts[1..])
    else [parts[0]] + NonEmpty(parts[1..])
  }

  /** The comma-separated pieces of the input, trimmed. */
  function Pieces(input: string): seq<string> {
    TrimAll(Split(Trim(input), ','))
  }

  /** `input.trim().split(',').map(k => k.trim()).filter(k => k).slice(0, 3)`. */
  function ParseKeywords(input: string): (r: seq<string>)
    ensures |r| <= MaxKeywords
  {
    var kept := NonEmpty(Pieces(input));
    kept[..if |kept| <= MaxKeywords then |kept| else MaxKeywords]
  }

  /** All the non-empty pieces are kept, up to three. */
  lemma ParseKeywordsLength(input: string)
    ensures |ParseKeywords(input)| == Min(MaxKeywords, |NonEmpty(Pieces(input))|)
  {
  }

  /** The parsed keywords are the first non-empty pieces. */
  lemma ParseKeywordsKeepsFirst(input: string)
    ensures forall k :: 0 <= k < |ParseKeywords(input)| ==> ParseKeywords(input)[k] == NonEmpty(Pieces(input))[k]
  {
  }

  /** The parsed keywords keep the order of the pieces they come from. */
  lemma ParseKeywordsInOrder(input: string)
    ensures IsSubsequence(ParseKeywords(input), Pieces(input))
  {
    var pieces := Pieces(input);
    var kept := NonEmpty(pieces);
    NonEmptyIsSubsequence(pieces);
    PrefixOfSubsequence(kept, pieces, if |kept| <= MaxKeywords then |kept| else MaxKeywords);
  }

  /** A prefix of a subsequence is a subsequence. */
  lemma PrefixOfSubsequence(a: seq<string>, b: seq<string>, n: nat)
    requires IsSubsequence(a, b) && n <= |a|
    ensures IsSubsequence(a[..n], b)
  {
    PrefixIsSubsequence(a, n);
    SubsequenceTransitive(a[..n], a, b);
  }

  /** Every parsed keyword is non-empty, trimmed and free of commas. */
  lemma ParseKeywordsEntries(input: string)
    ensures forall x :: x in ParseKeywords(input) ==> x != [] && Trim(x) == x && ',' !in x
  {
    var r := ParseKeywords(input);
    ParseKeywordsInOrder(input);
    SubsequenceMembers(r, Pieces(input));
    PiecesAreTrimmed(input);
  }

  /** Filtering keeps the order: the kept strings are a subsequence. */
  lemma {:induction false} NonEmptyIsSubsequence(parts: seq<string>)
    ensures IsSubsequence(NonEmpty(parts), parts)
    decreases |parts|
  {
    if parts != [] {
      NonEmptyIsSubsequence(parts[1..]);
      if parts[0] != [] {
        assert NonEmpty(parts)[1..] == NonEmpty(parts[1..]);
      }
    }
  }

  /** Filtering drops only empty strings. */
  lemma {:induction false} NonEmptyKeepsAll(parts: seq<string>, x: string)
    requires x in parts && x != []
    ensures x in NonEmpty(parts)
  {
    if parts[0] != x {
      NonEmptyKeepsAll(parts[1..], x);
    }
  }

  lemma {:induction false} SubsequenceMembers(a: seq<string>, b: seq<string>)
    requires IsSubsequence(a, b)
    ensures forall x :: x in a ==> x in b
    decreases |b|
  {
    if a != [] {
      if a[0] == b[0] && IsSubsequence(a[1..], b[1..]) {
        SubsequenceMembers(a[1..], b[1..]);
        assert forall x :: x in a ==> x == a[0] || x in a[1..];
      } else {
        SubsequenceMembers(a, b[1..]);
      }
    }
  }

  /** Every piece is already trimmed and holds no comma. */
  lemma PiecesAreTrimmed(input: string)
    ensures forall x :: x in Pieces(input) ==> Trim(x) == x && ',' !in x
  {
    var pieces := Split(Trim(input), ',');
    forall x | x in Pieces(input) ensures Trim(x) == x && ',' !in x {
      var j :| 0 <= j < |pieces| && x == TrimAll(pieces)[j];
      TrimIdempotent(pieces[j]);
      TrimKeepsAbsent(pieces[j], ',');
    }
  }

  /** Trimming cannot introduce a character. */
  lemma TrimKeepsAbsent(s: string, c: char)
    requires c !in s
    ensures c !in Trim(s)
  {
    var r := Trim(s);
    var a := |s| - |TrimStart(s)|;
    assert r == s[a..a + |r|];
    forall i | 0 <= i < |r| ensures r[i] != c {
      assert r[i] == s[a + i];
    }
  }

  lemma {:induction false} PrefixIsSubsequence(a: seq<string>, n: nat)
    requires n <= |a|
    ensures IsSubsequence(a[..n], a)
    decreases |a|
  {
    if n > 0 {
      PrefixIsSubsequence(a[1..], n - 1);
      assert a[..n][1..] == a[1..][..n - 1];
    }
  }

  lemma {:induction false} SubsequenceTransitive(a: seq<string>, b: seq<string>, c: seq<string>)
    requires IsSubsequence(a, b) && IsSubsequence(b, c)
    ensures IsSubsequence(a, c)
    decreases |c|
  {
    if a != [] {
      if b[0] == c[0] && IsSubsequence(b[1..], c[1..]) {
        if a[0] == b[0] && IsSubsequence(a[1..], b[1..]) {
          SubsequenceTransitive(a[1..], b[1..], c[1..]);
        } else {
          SubsequenceTransitive(a, b[1..], c[1..]);
        }
      } else {
        SubsequenceTransitive(a, b, c[1..]);
      }
    }
  }
}
