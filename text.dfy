/** The three regular-expression shapes the tools build from caller input, read as literal
    predicates: the caller's text is taken as plain characters (the tools do not escape it,
    so a metacharacter in it would change the match; that case is not modelled). Case folding
    is ASCII-only, as PCRE's caseless mode and SQL `LOWER` do for ASCII text. */
module Text {

  function LowerChar(c: char): char
  {
    if 'A' <= c <= 'Z' then (c as int + 32) as char else c
  }

  function Lower(s: string): (r: string)
    ensures |r| == |s|
    ensures forall i :: 0 <= i < |s| ==> r[i] == LowerChar(s[i])
  {
    seq(|s|, i requires 0 <= i < |s| => LowerChar(s[i]))
  }

  /** `LOWER(a) = LOWER(b)` */
  predicate EqualIgnoringCase(a: string, b: string)
  {
    Lower(a) == Lower(b)
  }

  /** `needle` occurs in `hay` at position `i`, ignoring case. */
  predicate OccursAt(hay: string, needle: string, i: int)
  {
    0 <= i && i + |needle| <= |hay| && EqualIgnoringCase(hay[i..i + |needle|], needle)
  }

  /** `{"$regex": needle, "$options": "i"}`: a case-insensitive substring match. */
  predicate ContainsIgnoringCase(hay: string, needle: string)
  {
    exists i :: 0 <= i <= |hay| - |needle| && OccursAt(hay, needle, i)
  }

  /** PCRE's `\w` without Unicode properties. */
  predicate IsWordChar(c: char)
  {
    ('a' <= c <= 'z') || ('A' <= c <= 'Z') || ('0' <= c <= '9') || c == '_'
  }

  predicate WordCharAt(s: string, i: int)
  {
    0 <= i < |s| && IsWordChar(s[i])
  }

  /** `\b` holds at position `i`: a word character on exactly one side. */
  predicate BoundaryAt(s: string, i: int)
  {
    WordCharAt(s, i - 1) != WordCharAt(s, i)
  }

  /** `{"$regex": "\b" + word + "\b", "$options": "i"}`: a case-insensitive whole-word match. */
  predicate ContainsWordIgnoringCase(hay: string, word: string)
  {
    exists i :: 0 <= i <= |hay| - |word| && OccursAt(hay, word, i) && BoundaryAt(hay, i) && BoundaryAt(hay, i + |word|)
  }

  /** `{"$regex": "^" + p + "$", "$options": "i"}`: the whole string equals `p` ignoring case;
      PCRE's `$` also matches before one final newline. */
  predicate MatchesWholeIgnoringCase(s: string, p: string)
  {
    EqualIgnoringCase(s, p) || EqualIgnoringCase(s, p + "\n")
  }

  /** A whole-word match is in particular a substring match. */
  lemma WordMatchIsSubstringMatch(hay: string, word: string)
    requires ContainsWordIgnoringCase(hay, word)
    ensures ContainsIgnoringCase(hay, word)
  {
  }

  /** A whole-string match is in particular a substring match, at position 0. */
  lemma WholeMatchIsSubstringMatch(s: string, p: string)
    requires MatchesWholeIgnoringCase(s, p)
    ensures ContainsIgnoringCase(s, p)
  {
    assert |s| == |p| || |s| == |p| + 1;
    assert Lower(s[..|p|]) == Lower(s)[..|p|];
    assert Lower(p + "\n")[..|p|] == Lower(p);
    assert OccursAt(s, p, 0);
  }

  /** A substring match ignores case on both sides. */
  lemma {:induction false} ContainsIgnoresCase(hay: string, needle: string)
    ensures ContainsIgnoringCase(hay, needle) <==> ContainsIgnoringCase(Lower(hay), Lower(needle))
  {
    forall i | 0 <= i <= |hay| - |needle|
      ensures OccursAt(hay, needle, i) <==> OccursAt(Lower(hay), Lower(needle), i)
    {
      assert Lower(hay)[i..i + |needle|] == Lower(hay[i..i + |needle|]);
      LowerIdempotent(hay[i..i + |needle|]);
      LowerIdempotent(needle);
    }
  }

  lemma LowerIdempotent(s: string)
    ensures Lower(Lower(s)) == Lower(s)
  {
  }
}
