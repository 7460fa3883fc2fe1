/** The string operations the app relies on: `str.lower`, the `in`
    substring test, `str.startswith` and `str.endswith`. */
module Text {

  /** One character of `str.lower`, for the ASCII letters. */
  function LowerChar(c: char): char
  {
    if 'A' <= c <= 'Z' then (c as int + 32) as char else c
  }

  /** `s.lower()`: same length, every capital A-Z turned into its small
      letter, every other character kept. */
  function Lower(s: string): (r: string)
    ensures |r| == |s|
    ensures forall i :: 0 <= i < |s| ==> r[i] == LowerChar(s[i])
    ensures forall i :: 0 <= i < |r| ==> !('A' <= r[i] <= 'Z')
    ensures forall i :: 0 <= i < |s| && !('A' <= s[i] <= 'Z') ==> r[i] == s[i]
  {
    seq(|s|, i requires 0 <= i < |s| => LowerChar(s[i]))
  }

  /** Lower-casing twice is lower-casing once, and a text with no capital
      letters is its own lower-case form. */
  lemma LowerIdempotent(s: string)
    ensures Lower(Lower(s)) == Lower(s)
    ensures (forall i :: 0 <= i < |s| ==> !('A' <= s[i] <= 'Z')) ==> Lower(s) == s
  {
    var r := Lower(s);
    assert forall i :: 0 <= i < |r| ==> Lower(r)[i] == r[i];
  }

  /** The reference meaning of a substring: `p` sits in `s` at offset `i`. */
  ghost predicate OccursAt(p: string, s: string, i: int)
  {
    0 <= i && i + |p| <= |s| && s[i..i + |p|] == p
  }

  ghost predicate Occurs(p: string, s: string)
  {
    exists i :: OccursAt(p, s, i)
  }

  /** `p in s`, computed by trying every start position from the left. */
  function Contains(s: string, p: string): bool
    decreases |s|
  {
    if |p| > |s| then false
    else if s[..|p|] == p then true
    else Contains(s[1..], p)
  }

  /** The executable test agrees with the reference meaning: `p in s` holds
      exactly when `p` occurs at some offset of `s`. */
  lemma {:induction false} ContainsIff(s: string, p: string)
    ensures Contains(s, p) <==> Occurs(p, s)
    decreases |s|
  {
    if |p| > |s| {
    } else if s[..|p|] == p {
      assert OccursAt(p, s, 0);
    } else {
      ContainsIff(s[1..], p);
      if Occurs(p, s) {
        var i :| OccursAt(p, s, i);
        assert s[0..|p|] == s[..|p|];
        assert i != 0;
        assert s[1..][i - 1..i - 1 + |p|] == s[i..i + |p|];
        assert OccursAt(p, s[1..], i - 1);
      }
      if Occurs(p, s[1..]) {
        var j :| OccursAt(p, s[1..], j);
        assert s[1..][j..j + |p|] == s[j + 1..j + 1 + |p|];
        assert OccursAt(p, s, j + 1);
      }
    }
  }

  /** A string in which some character of `p` never appears does not contain `p`. */
  lemma AbsentCharNotContained(s: string, p: string, k: nat)
    requires k < |p|
    requires p[k] !in s
    ensures !Occurs(p, s)
    ensures !Contains(s, p)
  {
    ContainsIff(s, p);
    forall i | 0 <= i
      ensures !OccursAt(p, s, i)
    {
      if i + |p| <= |s| {
        assert s[i..i + |p|][k] == s[i + k];
      }
    }
  }

  /** `s.startswith(p)`. */
  predicate StartsWith(s: string, p: string)
  {
    |p| <= |s| && s[..|p|] == p
  }

  /** `s.endswith(p)`. */
  predicate EndsWith(s: string, p: string)
  {
    |p| <= |s| && s[|s| - |p|..] == p
  }

  /** A string built as `p + t` starts with `p`. */
  lemma StartsWithConcat(p: string, t: string)
    ensures StartsWith(p + t, p)
  {
    assert (p + t)[..|p|] == p;
  }

  /** A string built as `t + q` ends with `q` and with no other string of
      the same length. */
  lemma EndsWithConcat(t: string, q: string, q': string)
    requires |q'| == |q|
    ensures EndsWith(t + q, q') <==> q' == q
  {
    assert (t + q)[|t + q| - |q|..] == q;
  }
}
