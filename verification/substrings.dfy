/** Substring containment on strings, as Python's `sub in s` operator decides it. */
module Substrings {

  /** `sub` is a prefix of `s`. */
  predicate IsPrefix(sub: string, s: string) {
    |sub| <= |s| && s[..|sub|] == sub
  }

  /** `sub` occurs somewhere in `s` (Python's `sub in s`); the empty string occurs everywhere. */
  predicate Contains(s: string, sub: string) {
    exists i | 0 <= i <= |s| :: IsPrefix(sub, s[i..])
  }

  /** A left-to-right scan deciding `sub in s`; on success `at` is the first occurrence. */
  method Search(s: string, sub: string) returns (found: bool, at: nat)
    ensures found <==> Contains(s, sub)
    ensures found ==> at <= |s| && IsPrefix(sub, s[at..])
    ensures found ==> forall j | 0 <= j < at :: !IsPrefix(sub, s[j..])
  {
    var i := 0;
    while i + |sub| <= |s|
      invariant 0 <= i <= |s| + 1
      invariant forall j | 0 <= j < i :: !IsPrefix(sub, s[j..])
    {
      if s[i..i + |sub|] == sub {
        assert IsPrefix(sub, s[i..]);
        return true, i;
      }
      i := i + 1;
    }
    forall j | 0 <= j <= |s|
      ensures !IsPrefix(sub, s[j..])
    {
      if j >= i {
        assert |s[j..]| < |sub|;
      }
    }
    return false, 0;
  }

  /** A string occurs in any concatenation that places it in the middle. */
  lemma ContainsInfix(a: string, b: string, c: string)
    ensures Contains(a + b + c, b)
  {
    var s := a + b + c;
    assert s[|a|..] == b + c;
    assert (b + c)[..|b|] == b;
    assert IsPrefix(b, s[|a|..]);
  }

  /** A non-empty string whose first character never appears in `s` does not occur in `s`. */
  lemma AbsentFirstChar(s: string, sub: string)
    requires |sub| > 0
    requires forall k | 0 <= k < |s| :: s[k] != sub[0]
    ensures !Contains(s, sub)
  {
    forall i | 0 <= i <= |s|
      ensures !IsPrefix(sub, s[i..])
    {
      if i < |s| {
        assert s[i..][0] == s[i];
      }
    }
  }
}
