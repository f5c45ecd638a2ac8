/**
 * The string operations the client applies: `toLowerCase` (ASCII letters
 * only), `includes`, and `replace` with a one-character pattern, which
 * replaces the first occurrence only.
 */
module Text {
  import Seqs

  function LowerChar(c: char): char {
    if 'A' <= c <= 'Z' then (c as int + 32) as char else c
  }

  /** `s.toLowerCase()` over ASCII letters. */
  function Lower(s: string): string {
    seq(|s|, i requires 0 <= i < |s| => LowerChar(s[i]))
  }

  /** Lower-casing an already lower-cased string changes nothing. */
  lemma LowerIdempotent(s: string)
    ensures Lower(Lower(s)) == Lower(s)
  {
  }

  /** `hay.includes(needle)`: `needle` occurs in `hay` at some position. */
  predicate Contains(hay: string, needle: string)
    decreases |hay|
  {
    needle <= hay || (hay != [] && Contains(hay[1..], needle))
  }

  /** `needle` occurs in `hay` starting at position `i`. */
  predicate OccursAt(hay: string, needle: string, i: nat) {
    i + |needle| <= |hay| && needle == hay[i..i + |needle|]
  }

  /** `Contains` agrees with the positional reading of `includes`. */
  lemma {:induction false} ContainsAt(hay: string, needle: string)
    ensures Contains(hay, needle) <==> exists i: nat :: OccursAt(hay, needle, i)
  {
    if needle <= hay {
      assert OccursAt(hay, needle, 0);
    } else if hay != [] {
      ContainsAt(hay[1..], needle);
      if Contains(hay[1..], needle) {
        var i: nat :| OccursAt(hay[1..], needle, i);
        assert OccursAt(hay, needle, i + 1);
      }
      if exists i: nat :: OccursAt(hay, needle, i) {
        var i: nat :| OccursAt(hay, needle, i);
        assert i != 0;
        assert OccursAt(hay[1..], needle, i - 1);
      }
    } else {
      assert forall i: nat :: !OccursAt(hay, needle, i);
    }
  }

  /** Every string includes the empty string. */
  lemma ContainsEmpty(hay: string)
    ensures Contains(hay, "")
  {
  }

  /** `s.replace(from, to)` for single characters. */
  function ReplaceFirst(s: string, from: char, to: char): string {
    if s == [] then []
    else if s[0] == from then [to] + s[1..]
    else [s[0]] + ReplaceFirst(s[1..], from, to)
  }

  /**
   * Only the first `from` becomes `to`; every other character stays, and a
   * string without `from` is unchanged.
   */
  lemma {:induction false} ReplaceFirstSpec(s: string, from: char, to: char)
    ensures from !in s ==> ReplaceFirst(s, from, to) == s
    ensures from in s ==> ReplaceFirst(s, from, to)
                          == s[..Seqs.FirstIndex(s, from)] + [to] + s[Seqs.FirstIndex(s, from) + 1..]
  {
    if s != [] && s[0] != from {
      ReplaceFirstSpec(s[1..], from, to);
      assert from in s ==> from in s[1..];
      assert s == [s[0]] + s[1..];
    }
  }

  /**
   * `replace` keeps the length, and each character is either kept or is a
   * `from` that became `to`.
   */
  lemma {:induction false} ReplaceFirstPointwise(s: string, from: char, to: char)
    ensures |ReplaceFirst(s, from, to)| == |s|
    ensures forall i :: 0 <= i < |s| ==>
              ReplaceFirst(s, from, to)[i] == s[i] || (s[i] == from && ReplaceFirst(s, from, to)[i] == to)
  {
    if s != [] && s[0] != from {
      ReplaceFirstPointwise(s[1..], from, to);
      var r := ReplaceFirst(s, from, to);
      forall i | 1 <= i < |s| ensures r[i] == s[i] || (s[i] == from && r[i] == to) {
        assert r[i] == ReplaceFirst(s[1..], from, to)[i - 1] && s[i] == s[1..][i - 1];
      }
    }
  }
}
