/** The string operations the archive search uses: `toLowerCase` and `includes`. */
module Text {

  /** `toLowerCase` on one character, for the Latin letters A-Z and the Cyrillic
      capitals U+0400-U+042F (which include Ё and А-Я); every other character is
      returned unchanged. */
  function LowerChar(c: char): (l: char)
    ensures !IsUpper(l)
  {
    if 'A' <= c <= 'Z' then (c as int + 32) as char
    else if 'А' <= c <= 'Я' then (c as int + 0x20) as char
    else if 'Ѐ' <= c <= 'Џ' then (c as int + 0x50) as char
    else c
  }

  /** The characters `LowerChar` changes. */
  predicate IsUpper(c: char)
  {
    'A' <= c <= 'Z' || 'Ѐ' <= c <= 'Я'
  }

  /** `s.toLowerCase()`, character by character: no capital survives, and a string
      without capitals comes back as it was. */
  function Lower(s: string): (r: string)
    ensures forall i :: 0 <= i < |r| ==> !IsUpper(r[i])
    ensures (forall i :: 0 <= i < |s| ==> !IsUpper(s[i])) ==> r == s
  {
    seq(|s|, i requires 0 <= i < |s| => LowerChar(s[i]))
  }

  /** Lowercasing twice is lowercasing once. */
  lemma LowerIdempotent(s: string)
    ensures Lower(Lower(s)) == Lower(s)
  {
    forall i | 0 <= i < |s|
      ensures Lower(Lower(s))[i] == Lower(s)[i]
    {
      assert !IsUpper(Lower(s)[i]);
    }
  }

  /** `s.includes(sub)`: `sub` occurs somewhere in `s` as a contiguous block. */
  predicate Includes(s: string, sub: string)
    decreases |s|
  {
    sub <= s || (|s| > 0 && Includes(s[1..], sub))
  }

  /** Reference definition of an occurrence: `sub` starts at index `i` of `s`. */
  ghost predicate OccursAt(s: string, sub: string, i: int)
  {
    0 <= i && i + |sub| <= |s| && s[i..i + |sub|] == sub
  }

  /** `Includes` finds exactly the occurrences of the reference definition. */
  lemma {:induction false} IncludesIffOccurs(s: string, sub: string)
    ensures Includes(s, sub) <==> exists i :: OccursAt(s, sub, i)
    decreases |s|
  {
    if sub <= s {
      assert OccursAt(s, sub, 0);
    } else if |s| > 0 {
      forall i | OccursAt(s, sub, i)
        ensures OccursAt(s[1..], sub, i - 1)
      {
        OccurrencePastHead(s, sub, i);
      }
      IncludesIffOccurs(s[1..], sub);
      if Includes(s[1..], sub) {
        var i :| OccursAt(s[1..], sub, i);
        assert s[i + 1..i + 1 + |sub|] == s[1..][i..i + |sub|];
        assert OccursAt(s, sub, i + 1);
      }
    }
  }

  /** An occurrence that is not at the start is an occurrence in the tail. */
  lemma OccurrencePastHead(s: string, sub: string, i: int)
    requires !(sub <= s)
    requires OccursAt(s, sub, i)
    ensures OccursAt(s[1..], sub, i - 1)
  {
    assert s[1..][i - 1..i - 1 + |sub|] == s[i..i + |sub|];
  }

  /** Every string includes the empty string. */
  lemma IncludesEmpty(s: string)
    ensures Includes(s, "")
  {
  }
}
