/** Facts about strings (sequences of characters) that the model's messages need. */
module Text {

  /** `sub` occurs somewhere in `s` as a contiguous piece. */
  predicate Contains(s: string, sub: string) {
    exists i, j | 0 <= i <= j <= |s| :: s[i..j] == sub
  }

  /** The last piece of a concatenation occurs in it. */
  lemma ContainsSuffix(prefix: string, sub: string)
    ensures Contains(prefix + sub, sub)
  {
    var s := prefix + sub;
    assert s[|prefix|..|prefix| + |sub|] == sub;
  }

  /** The middle piece of a three-way concatenation occurs in it. */
  lemma ContainsMiddle(prefix: string, sub: string, suffix: string)
    ensures Contains(prefix + sub + suffix, sub)
  {
    var s := prefix + sub + suffix;
    assert s[|prefix|..|prefix| + |sub|] == sub;
  }
}
