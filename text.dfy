/**
 * Strings as the post store uses them: lowercasing (restricted to ASCII)
 * and substring containment, as JavaScript's `toLowerCase` and `includes`.
 */
module Text {

  /** Lowercase of one character: 'A'..'Z' map to 'a'..'z', everything else is kept. */
  function LowerChar(c: char): char {
    if 'A' <= c <= 'Z' then (c as int + 32) as char else c
  }

  predicate IsUpper(c: char) {
    'A' <= c <= 'Z'
  }

  /** Lowercase of a string, character by character. */
  function Lower(s: string): (r: string)
    ensures |r| == |s|
    ensures forall i :: 0 <= i < |s| ==> r[i] == LowerChar(s[i])
  {
    if s == [] then [] else [LowerChar(s[0])] + Lower(s[1..])
  }

  /** Lowercasing a character leaves no upper-case letter and changes nothing else. */
  lemma LowerCharSpec(c: char)
    ensures !IsUpper(LowerChar(c))
    ensures !IsUpper(c) ==> LowerChar(c) == c
    ensures IsUpper(c) ==> LowerChar(c) as int == c as int + 32
  {
  }

  /** Lowercasing twice is lowercasing once. */
  lemma LowerIdempotent(s: string)
    ensures Lower(Lower(s)) == Lower(s)
  {
    var once := Lower(s);
    forall i | 0 <= i < |s|
      ensures Lower(once)[i] == once[i]
    {
      LowerCharSpec(s[i]);
    }
  }

  predicate IsPrefix(p: string, s: string) {
    |p| <= |s| && s[..|p|] == p
  }

  /** `sub` occurs in `s` starting at index `i`. */
  ghost predicate OccursAt(s: string, sub: string, i: int) {
    0 <= i && i + |sub| <= |s| && s[i..i + |sub|] == sub
  }

  /** Declarative substring containment: some index of `s` starts a copy of `sub`. */
  ghost predicate Contains(s: string, sub: string) {
    exists i :: OccursAt(s, sub, i)
  }

  /** `sub` occurs in `s` iff it starts `s` or occurs in the rest of `s`. */
  lemma ContainsStep(s: string, sub: string)
    ensures Contains(s, sub) <==> IsPrefix(sub, s) || (|s| > 0 && Contains(s[1..], sub))
  {
    if IsPrefix(sub, s) {
      assert OccursAt(s, sub, 0);
    } else if |s| == 0 {
      assert |sub| > 0;
    } else {
      if Contains(s[1..], sub) {
        var i :| OccursAt(s[1..], sub, i);
        assert s[1..][i..i + |sub|] == s[i + 1..i + 1 + |sub|];
        assert OccursAt(s, sub, i + 1);
      }
      if Contains(s, sub) {
        var i :| OccursAt(s, sub, i);
        assert i != 0;
        assert s[1..][i - 1..i - 1 + |sub|] == s[i..i + |sub|];
        assert OccursAt(s[1..], sub, i - 1);
      }
    }
  }

  /**
   * Substring search as `s.includes(sub)`: try every start position from the left.
   * It finds `sub` exactly when `sub` occurs somewhere in `s`.
   */
  function Includes(s: string, sub: string): (b: bool)
    ensures b <==> Contains(s, sub)
    decreases |s|
  {
    ContainsStep(s, sub);
    IsPrefix(sub, s) || (|s| > 0 && Includes(s[1..], sub))
  }

  /** Every string includes the empty string. */
  lemma IncludesEmpty(s: string)
    ensures Includes(s, "")
  {
    assert IsPrefix("", s);
  }

  /** A non-empty string whose first character does not occur in `s` is not included in `s`. */
  lemma {:induction false} NotIncludesWithoutFirstChar(s: string, sub: string)
    requires |sub| > 0 && sub[0] !in s
    ensures !Includes(s, sub)
    decreases |s|
  {
    if |s| > 0 {
      assert s[0] != sub[0];
      assert forall c :: c in s[1..] ==> c in s;
      NotIncludesWithoutFirstChar(s[1..], sub);
    }
  }
}
