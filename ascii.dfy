/**
 * ASCII case folding and substring search, the two string operations the
 * explore search uses (`toLowerCase` and `includes`). Characters outside
 * 'A'..'Z' and 'a'..'z' are left as they are.
 */
module Ascii {

  function LowerChar(c: char): char
  {
    if 'A' <= c <= 'Z' then (c as int + 32) as char else c
  }

  function UpperChar(c: char): char
  {
    if 'a' <= c <= 'z' then (c as int - 32) as char else c
  }

  /** `toLowerCase`, restricted to ASCII letters. */
  function Lower(s: string): (r: string)
    ensures |r| == |s|
    ensures forall i :: 0 <= i < |s| ==> r[i] == LowerChar(s[i])
    ensures forall i :: 0 <= i < |s| ==> !('A' <= r[i] <= 'Z')
  {
    seq(|s|, i requires 0 <= i < |s| => LowerChar(s[i]))
  }

  /** `toUpperCase`, restricted to ASCII letters. */
  function Upper(s: string): (r: string)
    ensures |r| == |s|
    ensures forall i :: 0 <= i < |s| ==> r[i] == UpperChar(s[i])
    ensures forall i :: 0 <= i < |s| ==> !('a' <= r[i] <= 'z')
  {
    seq(|s|, i requires 0 <= i < |s| => UpperChar(s[i]))
  }

  /** Folding is insensitive to the case the text was written in. */
  lemma LowerOfUpper(s: string)
    ensures Lower(Upper(s)) == Lower(s)
  {
  }

  lemma LowerIdempotent(s: string)
    ensures Lower(Lower(s)) == Lower(s)
  {
  }

  /** `t` occurs in `s` starting at index `i`. */
  predicate OccursAt(s: string, t: string, i: int)
  {
    0 <= i && i + |t| <= |s| && s[i..i + |t|] == t
  }

  /** `s.includes(t)`: `t` is a prefix of `s` or of one of its suffixes. */
  function Includes(s: string, t: string): bool
    decreases |s|
  {
    t <= s || (|s| > 0 && Includes(s[1..], t))
  }

  /** An occurrence of `t` at any index is found by `Includes`. */
  lemma {:induction false} OccursIncluded(s: string, t: string, i: int)
    requires OccursAt(s, t, i)
    ensures Includes(s, t)
    decreases i
  {
    if i == 0 {
      assert s[..|t|] == t;
    } else {
      assert s[1..][i - 1..i - 1 + |t|] == s[i..i + |t|];
      OccursIncluded(s[1..], t, i - 1);
    }
  }

  /** `Includes` holds exactly when `t` occurs somewhere in `s`. */
  lemma {:induction false} IncludesIffOccurs(s: string, t: string)
    ensures Includes(s, t) <==> exists i :: OccursAt(s, t, i)
    decreases |s|
  {
    if t <= s {
      assert s[0..|t|] == t;
      assert OccursAt(s, t, 0);
    } else if |s| > 0 && Includes(s[1..], t) {
      IncludesIffOccurs(s[1..], t);
      var i :| OccursAt(s[1..], t, i);
      assert s[1..][i..i + |t|] == s[i + 1..i + 1 + |t|];
      assert OccursAt(s, t, i + 1);
    }
    forall i | OccursAt(s, t, i) ensures Includes(s, t) {
      OccursIncluded(s, t, i);
    }
  }

  /** Every string includes the empty string. */
  lemma IncludesEmpty(s: string)
    ensures Includes(s, "")
  {
  }
}
