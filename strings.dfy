/** String predicates used by the routing rules: prefix matching of the dashboard wildcard, and `includes`. */
module Strings {

  /** `t` is a prefix of `s`. */
  predicate IsPrefix(t: string, s: string) {
    |t| <= |s| && s[..|t|] == t
  }

  /** JavaScript's `s.includes(t)`, by scanning the start positions of `s` in order. */
  predicate Contains(s: string, t: string): (b: bool)
    ensures IsPrefix(t, s) ==> b
    ensures b ==> |t| <= |s|
    decreases |s|
  {
    IsPrefix(t, s) || (|s| > 0 && Contains(s[1..], t))
  }

  /** `t` occurs in `s` starting at position `i`. */
  ghost predicate OccursAt(s: string, t: string, i: int) {
    0 <= i <= |s| - |t| && s[i..i + |t|] == t
  }

  lemma ShiftOccurrence(s: string, t: string, j: int)
    requires |s| > 0 && OccursAt(s[1..], t, j)
    ensures OccursAt(s, t, j + 1)
  {
    assert s[j + 1..j + 1 + |t|] == s[1..][j..j + |t|];
  }

  lemma UnshiftOccurrence(s: string, t: string, i: int)
    requires i > 0 && OccursAt(s, t, i)
    ensures OccursAt(s[1..], t, i - 1)
  {
    assert s[1..][i - 1..i - 1 + |t|] == s[i..i + |t|];
  }

  /** Where `includes` succeeds, the scan has found a position of `t` in `s`. */
  lemma {:induction false} OccurrenceOf(s: string, t: string) returns (i: int)
    requires Contains(s, t)
    ensures OccursAt(s, t, i)
    decreases |s|
  {
    if IsPrefix(t, s) {
      i := 0;
    } else {
      var j := OccurrenceOf(s[1..], t);
      ShiftOccurrence(s, t, j);
      i := j + 1;
    }
  }

  /** An occurrence at any position is found by the scan. */
  lemma {:induction false} OccursImpliesContains(s: string, t: string, i: int)
    requires OccursAt(s, t, i)
    ensures Contains(s, t)
    decreases i
  {
    if i > 0 {
      UnshiftOccurrence(s, t, i);
      OccursImpliesContains(s[1..], t, i - 1);
    }
  }

  /** `Contains` agrees with the positional definition of a substring. */
  lemma ContainsIffOccurs(s: string, t: string)
    ensures Contains(s, t) <==> exists i :: OccursAt(s, t, i)
  {
    if Contains(s, t) {
      var i := OccurrenceOf(s, t);
    }
    if exists i :: OccursAt(s, t, i) {
      var i :| OccursAt(s, t, i);
      OccursImpliesContains(s, t, i);
    }
  }

  /** Every character of a prefix of `s` is a character of `s`. */
  lemma PrefixChars(t: string, s: string, c: char)
    requires IsPrefix(t, s) && c in t
    ensures c in s
  {
    var k :| 0 <= k < |t| && t[k] == c;
    assert s[..|t|][k] == s[k];
  }

  /** A string that lacks one of the characters of `t` cannot contain `t`. */
  lemma {:induction false} MissingCharNotContained(s: string, t: string, c: char)
    requires c in t && c !in s
    ensures !Contains(s, t)
    decreases |s|
  {
    if IsPrefix(t, s) {
      PrefixChars(t, s, c);
      assert false;
    }
    if |s| > 0 {
      assert c !in s[1..] by {
        forall k | 0 <= k < |s[1..]| ensures s[1..][k] != c { assert s[1..][k] == s[k + 1]; }
      }
      MissingCharNotContained(s[1..], t, c);
    }
  }
}
