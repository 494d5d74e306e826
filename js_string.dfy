/** JavaScript string operations the components use, over `seq<char>`. */
module JsString {

  /** `t` occurs in `s` starting at index `i`. */
  predicate OccursAt(s: string, t: string, i: int) {
    0 <= i && i + |t| <= |s| && s[i..i + |t|] == t
  }

  /** `s.includes(t)`: `t` occurs in `s` somewhere. */
  predicate Includes(s: string, t: string) {
    exists i :: 0 <= i <= |s| - |t| && OccursAt(s, t, i)
  }

  /** An occurrence at a known position witnesses `includes`. */
  lemma IncludesAt(s: string, t: string, i: nat)
    requires i + |t| <= |s| && s[i..i + |t|] == t
    ensures Includes(s, t)
  {
    assert OccursAt(s, t, i);
  }

  /** A string includes each of its parts. */
  lemma IncludesParts(s: string, t: string, u: string)
    ensures Includes(s + t + u, t)
  {
    var w := s + t + u;
    assert w[|s|..|s| + |t|] == t;
    IncludesAt(w, t, |s|);
  }

  /** Appending text on the right keeps every occurrence. */
  lemma IncludesExtend(s: string, t: string, u: string)
    requires Includes(s, t)
    ensures Includes(s + u, t)
  {
    var i :| 0 <= i <= |s| - |t| && OccursAt(s, t, i);
    assert (s + u)[i..i + |t|] == s[i..i + |t|];
    IncludesAt(s + u, t, i);
  }

  /** The empty string is included in every string. */
  lemma IncludesEmpty(s: string)
    ensures Includes(s, "")
  {
    IncludesAt(s, "", 0);
  }
}
