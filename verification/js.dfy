/**
 * The pieces of JavaScript semantics the ledger relies on: truthiness in
 * `a || b`, ASCII lower-casing, `String.prototype.includes`, and the
 * character-by-character lexicographic order of `<=` on strings.
 */
module Js {

  /** `a || b` on strings: the empty string is the only falsy string. */
  function StrOr(a: string, b: string): (r: string)
    ensures a != "" ==> r == a
    ensures a == "" ==> r == b
  {
    if a != "" then a else b
  }

  /** `a || b` on numbers: zero is the only falsy number (NaN is not modelled). */
  function NumOr(a: real, b: real): (r: real)
    ensures a != 0.0 ==> r == a
    ensures a == 0.0 ==> r == b
  {
    if a != 0.0 then a else b
  }

  /** `toLowerCase` on one character, restricted to ASCII letters. */
  function LowerChar(c: char): (r: char)
    ensures 'A' <= c <= 'Z' ==> 'a' <= r <= 'z' && r as int - c as int == 32
    ensures !('A' <= c <= 'Z') ==> r == c
  {
    if 'A' <= c <= 'Z' then (c as int + 32) as char else c
  }

  /** `toLowerCase`, character by character. */
  function Lower(s: string): (r: string)
    ensures |r| == |s|
    ensures forall i :: 0 <= i < |s| ==> r[i] == LowerChar(s[i])
  {
    seq(|s|, i requires 0 <= i < |s| => LowerChar(s[i]))
  }

  /** `s.includes(t)`: `t` occurs in `s` at some position. */
  predicate Includes(s: string, t: string)
    decreases |s|
  {
    t <= s || (|s| > 0 && Includes(s[1..], t))
  }

  /** `t` occurs in `s` starting at position `k`. */
  predicate OccursAt(s: string, t: string, k: int) {
    0 <= k <= |s| - |t| && s[k..k + |t|] == t
  }

  /** `Includes` agrees with the positional definition of a substring. */
  lemma IncludesIffOccurs(s: string, t: string)
    ensures Includes(s, t) <==> exists k :: OccursAt(s, t, k)
  {
    if Includes(s, t) {
      var k := IncludesFindsOccurrence(s, t);
    }
    if exists k :: OccursAt(s, t, k) {
      var k :| OccursAt(s, t, k);
      OccurrenceIsIncluded(s, t, k);
    }
  }

  lemma {:induction false} IncludesFindsOccurrence(s: string, t: string) returns (k: int)
    requires Includes(s, t)
    ensures OccursAt(s, t, k)
    decreases |s|
  {
    if t <= s {
      assert s[0..|t|] == t;
      k := 0;
    } else {
      var k' := IncludesFindsOccurrence(s[1..], t);
      assert s[1..][k'..k' + |t|] == s[k' + 1..k' + 1 + |t|];
      k := k' + 1;
    }
  }

  lemma {:induction false} OccurrenceIsIncluded(s: string, t: string, k: int)
    requires OccursAt(s, t, k)
    ensures Includes(s, t)
    decreases |s|
  {
    if k == 0 {
      assert t <= s;
    } else {
      assert s[1..][k - 1..k - 1 + |t|] == s[k..k + |t|];
      OccurrenceIsIncluded(s[1..], t, k - 1);
    }
  }

  /** The empty search term is found in every string. */
  lemma IncludesEmpty(s: string)
    ensures Includes(s, "")
  {
  }

  /**
   * JavaScript's `a <= b` on strings: lexicographic by character, a proper
   * prefix sorting first. (Dafny's own `<=` on sequences means "is a prefix of".)
   */
  predicate LexLe(a: string, b: string)
    decreases |a|
  {
    if |a| == 0 then true
    else if |b| == 0 then false
    else if a[0] != b[0] then a[0] < b[0]
    else LexLe(a[1..], b[1..])
  }

  lemma {:induction false} LexLeReflexive(a: string)
    ensures LexLe(a, a)
    decreases |a|
  {
    if |a| > 0 {
      LexLeReflexive(a[1..]);
    }
  }

  lemma {:induction false} LexLeTotal(a: string, b: string)
    ensures LexLe(a, b) || LexLe(b, a)
    decreases |a|
  {
    if |a| > 0 && |b| > 0 && a[0] == b[0] {
      LexLeTotal(a[1..], b[1..]);
    }
  }

  lemma {:induction false} LexLeAntisymmetric(a: string, b: string)
    requires LexLe(a, b) && LexLe(b, a)
    ensures a == b
    decreases |a|
  {
    if |a| > 0 && |b| > 0 {
      LexLeAntisymmetric(a[1..], b[1..]);
      assert a == [a[0]] + a[1..];
      assert b == [b[0]] + b[1..];
    }
  }

  lemma {:induction false} LexLeTransitive(a: string, b: string, c: string)
    requires LexLe(a, b) && LexLe(b, c)
    ensures LexLe(a, c)
    decreases |a|
  {
    if |a| > 0 && |b| > 0 && |c| > 0 && a[0] == b[0] && b[0] == c[0] {
      LexLeTransitive(a[1..], b[1..], c[1..]);
    }
  }

  /** Strings that agree up to position `k` compare by their characters at `k`. */
  lemma {:induction false} LexLeFirstDifference(a: string, b: string, k: nat)
    requires k < |a| && k < |b|
    requires a[..k] == b[..k] && a[k] != b[k]
    ensures LexLe(a, b) <==> a[k] < b[k]
    decreases k
  {
    if k > 0 {
      assert a[0] == a[..k][0] && b[0] == b[..k][0];
      assert a[1..][..k - 1] == a[..k][1..] && b[1..][..k - 1] == b[..k][1..];
      LexLeFirstDifference(a[1..], b[1..], k - 1);
    }
  }

  /** A prefix compares less than or equal to the whole string. */
  lemma {:induction false} PrefixIsLexLe(a: string, b: string)
    requires a <= b
    ensures LexLe(a, b)
    decreases |a|
  {
    if |a| > 0 {
      PrefixIsLexLe(a[1..], b[1..]);
    }
  }
}
