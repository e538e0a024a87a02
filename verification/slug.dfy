/** The save-directory name derived from a search keyword:
    `keyword.replace(" ", "_").lower()` (scraper.py, line 76).

    Only ASCII case mapping is modelled: `LowerChar` maps 'A'..'Z' to
    'a'..'z' and leaves every other character alone. */
module Slug {

  predicate IsUpperAscii(c: char) {
    'A' <= c <= 'Z'
  }

  /** `str.lower` on one character, restricted to ASCII letters. */
  function LowerChar(c: char): (d: char)
    ensures !IsUpperAscii(d)
    ensures IsUpperAscii(c) ==> d as int == c as int + 32
    ensures !IsUpperAscii(c) ==> d == c
  {
    if IsUpperAscii(c) then (c as int + 32) as char else c
  }

  /** What the slug holds at a position where the keyword holds `c`. */
  function SlugChar(c: char): char {
    if c == ' ' then '_' else LowerChar(c)
  }

  /** `s.replace(" ", "_")`: every space becomes an underscore. */
  function ReplaceSpaces(s: string): (r: string)
    ensures |r| == |s|
    ensures ' ' !in r
    ensures forall i :: 0 <= i < |s| ==> r[i] == (if s[i] == ' ' then '_' else s[i])
  {
    if s == [] then [] else [if s[0] == ' ' then '_' else s[0]] + ReplaceSpaces(s[1..])
  }

  /** `s.lower()` for ASCII text. */
  function Lower(s: string): (r: string)
    ensures |r| == |s|
    ensures forall i :: 0 <= i < |r| ==> !IsUpperAscii(r[i])
    ensures forall i :: 0 <= i < |s| ==> r[i] == LowerChar(s[i])
  {
    if s == [] then [] else [LowerChar(s[0])] + Lower(s[1..])
  }

  /** The directory name for a keyword: spaces replaced first, then lowered.
      The result has the keyword's length, holds no space and no upper-case
      ASCII letter, and each position is derived from the same position of
      the keyword alone. */
  function KeywordSlug(keyword: string): (slug: string)
    ensures |slug| == |keyword|
    ensures ' ' !in slug
    ensures forall i :: 0 <= i < |slug| ==> !IsUpperAscii(slug[i])
    ensures forall i :: 0 <= i < |keyword| ==> slug[i] == SlugChar(keyword[i])
  {
    Lower(ReplaceSpaces(keyword))
  }

  /** A keyword is its own slug exactly when it has no space and no
      upper-case ASCII letter. */
  predicate IsSlug(s: string) {
    ' ' !in s && forall i :: 0 <= i < |s| ==> !IsUpperAscii(s[i])
  }

  /** Deriving the slug of a slug changes nothing. */
  lemma KeywordSlugIdempotent(keyword: string)
    ensures KeywordSlug(KeywordSlug(keyword)) == KeywordSlug(keyword)
  {
  }

  /** The fixed points of slug derivation are exactly the slugs. */
  lemma KeywordSlugFixedPoint(s: string)
    ensures KeywordSlug(s) == s <==> IsSlug(s)
  {
  }

  /** The order of the two string operations does not matter. */
  lemma ReplaceThenLowerCommute(keyword: string)
    ensures Lower(ReplaceSpaces(keyword)) == ReplaceSpaces(Lower(keyword))
  {
  }

  /** Two keywords get the same slug exactly when they agree position by
      position up to ASCII case and space versus underscore; so slug
      derivation is not injective ("Cewe cantik" and "cewe_cantik" collide).
      Equal slugs give the same save directory; the converse is not claimed,
      since the directory is built by `os.path.join`, which is not modelled. */
  lemma SameSaveDirectory(a: string, b: string)
    ensures KeywordSlug(a) == KeywordSlug(b) <==>
      |a| == |b| && forall i :: 0 <= i < |a| ==> SlugChar(a[i]) == SlugChar(b[i])
  {
  }
}
