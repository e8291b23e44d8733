/** The glob matching of URIs against ignore patterns. */
module WildMatch {

  /** `WildMatch::new(pattern).matches(s)`: the whole of `s` matches `pattern`, where `*` stands
      for any run of characters, `?` for any one character and every other character for itself. */
  predicate Matches(pattern: string, s: string)
    decreases |pattern| + |s|
  {
    if pattern == [] then s == []
    else if pattern[0] == '*' then Matches(pattern[1..], s) || (s != [] && Matches(pattern, s[1..]))
    else s != [] && (pattern[0] == '?' || pattern[0] == s[0]) && Matches(pattern[1..], s[1..])
  }

  /** A pattern without wildcard characters. */
  predicate IsLiteral(pattern: string) {
    forall i :: 0 <= i < |pattern| ==> pattern[i] != '*' && pattern[i] != '?'
  }

  /** A pattern without wildcards matches exactly itself. */
  lemma {:induction false} LiteralMatchesItselfOnly(pattern: string, s: string)
    requires IsLiteral(pattern)
    ensures Matches(pattern, s) <==> s == pattern
    decreases |pattern|
  {
    if pattern != [] && s != [] {
      LiteralMatchesItselfOnly(pattern[1..], s[1..]);
      if s == pattern {
        assert s[1..] == pattern[1..];
      }
      if s[0] == pattern[0] && s[1..] == pattern[1..] {
        assert s == [s[0]] + s[1..] && pattern == [pattern[0]] + pattern[1..];
      }
    }
  }

  /** `*` matches every text. */
  lemma {:induction false} StarMatchesEverything(s: string)
    ensures Matches("*", s)
    decreases |s|
  {
    assert "*"[1..] == [];
    if s != [] {
      StarMatchesEverything(s[1..]);
    }
  }

  /** A literal prefix followed by `*` matches every text that starts with that prefix. */
  lemma {:induction false} PrefixStarMatches(prefix: string, rest: string)
    requires IsLiteral(prefix)
    ensures Matches(prefix + "*", prefix + rest)
    decreases |prefix|
  {
    if prefix == [] {
      assert prefix + "*" == "*" && prefix + rest == rest;
      StarMatchesEverything(rest);
    } else {
      PrefixStarMatches(prefix[1..], rest);
      assert (prefix + "*")[1..] == prefix[1..] + "*";
      assert (prefix + rest)[1..] == prefix[1..] + rest;
    }
  }
}
