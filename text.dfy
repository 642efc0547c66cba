/** Case-insensitive substring matching, as a name search with a
    case-insensitive pattern `.*s.*` performs it on ASCII text. */
module Text {

  function LowerChar(c: char): (d: char)
    ensures 'A' <= c <= 'Z' ==> d as int == c as int + 32
    ensures !('A' <= c <= 'Z') ==> d == c
    ensures !('A' <= d <= 'Z')
  {
    if 'A' <= c <= 'Z' then (c as int + 32) as char else c
  }

  function UpperChar(c: char): (d: char)
    ensures 'a' <= c <= 'z' ==> d as int == c as int - 32
    ensures !('a' <= c <= 'z') ==> d == c
    ensures !('a' <= d <= 'z')
  {
    if 'a' <= c <= 'z' then (c as int - 32) as char else c
  }

  /** `s` with every ASCII capital replaced by its small letter. */
  function Lower(s: string): (r: string)
    ensures |r| == |s|
    ensures forall i | 0 <= i < |s| :: r[i] == LowerChar(s[i])
  {
    seq(|s|, i requires 0 <= i < |s| => LowerChar(s[i]))
  }

  /** `s` with every ASCII small letter replaced by its capital. */
  function Upper(s: string): (r: string)
    ensures |r| == |s|
    ensures forall i | 0 <= i < |s| :: r[i] == UpperChar(s[i])
  {
    seq(|s|, i requires 0 <= i < |s| => UpperChar(s[i]))
  }

  /** `needle` occurs in `hay` starting at position `i`. */
  predicate OccursAt(hay: string, needle: string, i: nat) {
    i + |needle| <= |hay| && hay[i..i + |needle|] == needle
  }

  /** `needle` occurs in `hay` as a contiguous run of characters. */
  predicate ContainsSubstring(hay: string, needle: string) {
    exists i: nat | i <= |hay| :: OccursAt(hay, needle, i)
  }

  /** `needle` occurs in `hay` when case is ignored. */
  predicate ContainsIgnoringCase(hay: string, needle: string) {
    ContainsSubstring(Lower(hay), Lower(needle))
  }

  /** Folding a capitalised string gives the fold of the original. */
  lemma LowerOfUpper(s: string)
    ensures Lower(Upper(s)) == Lower(s)
  {
    forall i | 0 <= i < |s| ensures Lower(Upper(s))[i] == Lower(s)[i] {
      var c := s[i];
      if 'a' <= c <= 'z' {
        assert LowerChar(UpperChar(c)) as int == c as int;
      }
    }
  }

  /** The empty string occurs in every string. */
  lemma EmptyOccursEverywhere(hay: string)
    ensures ContainsIgnoringCase(hay, "")
  {
    assert OccursAt(Lower(hay), Lower(""), 0);
  }
}
