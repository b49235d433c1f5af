/** The two string tests the services use: `startsWith` and `includes`. */
module Text {

  predicate StartsWith(s: string, prefix: string)
  {
    |prefix| <= |s| && s[..|prefix|] == prefix
  }

  /** `s.includes(sub)`: some suffix of `s` starts with `sub`. */
  predicate Contains(s: string, sub: string)
    decreases |s|
  {
    StartsWith(s, sub) || (|s| > 0 && Contains(s[1..], sub))
  }

  /** Every string contains itself. */
  lemma ContainsSelf(s: string)
    ensures Contains(s, s)
  {
    assert s[..|s|] == s;
  }

  /** A string contains only substrings made of its own characters; so a
      character of `sub` missing from `s` rules the match out. */
  lemma {:induction false} ContainsChars(s: string, sub: string)
    requires Contains(s, sub)
    ensures forall c :: c in sub ==> c in s
  {
    if StartsWith(s, sub) {
      forall c | c in sub ensures c in s {
        var k :| 0 <= k < |sub| && sub[k] == c;
        assert s[k] == s[..|sub|][k];
      }
    } else {
      ContainsChars(s[1..], sub);
      forall c | c in sub ensures c in s {
        assert c in s[1..];
        var k :| 0 <= k < |s[1..]| && s[1..][k] == c;
        assert s[k + 1] == c;
      }
    }
  }

  /** Contrapositive of ContainsChars, in the form callers use. */
  lemma Lacks(s: string, sub: string, c: char)
    requires c in sub && c !in s
    ensures !Contains(s, sub)
  {
    if Contains(s, sub) {
      ContainsChars(s, sub);
    }
  }
}
