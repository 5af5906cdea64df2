/** Facts about `format!` output: where the spliced-in arguments sit in a built string. */
module Text {
  import opened Prelude

  /** `sub` occurs in `s` starting at index `i`. */
  predicate OccursAt(s: string, sub: string, i: nat)
  {
    i + |sub| <= |s| && s[i..i + |sub|] == sub
  }

  /** `sub` occurs somewhere in `s`. */
  ghost predicate Contains(s: string, sub: string)
  {
    exists i: nat :: OccursAt(s, sub, i)
  }

  /** The part of `s` strictly between `prefix` and `suffix`, when `s` starts with `prefix`
      and ends with `suffix` and the two do not overlap. */
  function Between(s: string, prefix: string, suffix: string): (r: Option<string>)
    ensures r.Some? ==> s == prefix + r.value + suffix
  {
    if |prefix| + |suffix| <= |s| && s[..|prefix|] == prefix && s[|s| - |suffix|..] == suffix
    then
      var middle := s[|prefix|..|s| - |suffix|];
      assert s == s[..|prefix|] + middle + s[|s| - |suffix|..];
      Some(middle)
    else None
  }

  /** `Between` undoes splicing a string between a fixed prefix and suffix. */
  lemma BetweenOfSplice(prefix: string, middle: string, suffix: string)
    ensures Between(prefix + middle + suffix, prefix, suffix) == Some(middle)
  {
    var s := prefix + middle + suffix;
    assert s[..|prefix|] == prefix;
    assert s[|s| - |suffix|..] == suffix;
    assert s[|prefix|..|s| - |suffix|] == middle;
  }

  /** A string spliced between two others occurs in the result, right after the first. */
  lemma OccursInSplice(before: string, sub: string, after: string)
    ensures OccursAt(before + sub + after, sub, |before|)
    ensures Contains(before + sub + after, sub)
  {
    var s := before + sub + after;
    assert s[|before|..|before| + |sub|] == sub;
    assert OccursAt(s, sub, |before|);
  }

  /** A string spliced in first place within a longer concatenation occurs in it. */
  lemma OccursInLongSplice(before: string, sub: string, b: string, c: string, d: string)
    ensures Contains(before + sub + b + c + d, sub)
  {
    assert before + sub + b + c + d == before + sub + (b + c + d);
    OccursInSplice(before, sub, b + c + d);
  }

  /** `s` is a non-empty name of lower-case ASCII letters and underscores. */
  predicate IsSnakeCase(s: string)
  {
    |s| > 0 && forall i :: 0 <= i < |s| ==> s[i] == '_' || 'a' <= s[i] <= 'z'
  }
}
