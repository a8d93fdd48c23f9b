/** Ordinal string containment, as `string.Contains(string)` performs it. */
module Strings {

  /** `p` is a prefix of `s`. */
  predicate IsPrefix(p: string, s: string)
  {
    |p| <= |s| && s[..|p|] == p
  }

  /** `t` occurs in `s` at some position (ordinal comparison, no tokenising). */
  predicate Contains(s: string, t: string)
  {
    exists i | 0 <= i <= |s| - |t| :: IsPrefix(t, s[i..])
  }

  /** An occurrence at a known position is an occurrence. */
  lemma ContainsAt(s: string, t: string, i: nat)
    requires i + |t| <= |s| && s[i..i + |t|] == t
    ensures Contains(s, t)
  {
    assert IsPrefix(t, s[i..]);
  }

  /**
   * Containment is not token matching: whenever `s` contains `t + u`, it
   * contains `t`, so a placeholder `@Id` is found inside `@IdX`.
   */
  lemma ContainsExtension(s: string, t: string, u: string)
    requires Contains(s, t + u)
    ensures Contains(s, t)
  {
    var i :| 0 <= i <= |s| - |t + u| && IsPrefix(t + u, s[i..]);
    assert s[i..][..|t|] == (t + u)[..|t|] == t;
  }
}
