/**
 * The two string operations of Python's `str` that the adapter relies on:
 * `str.lower()` on header names and `str.replace(old, new)` on request URLs.
 */
module Text {

  /** `c.lower()` for ASCII letters; every other character is left as it is. */
  function LowerChar(c: char): (r: char)
    ensures !('A' <= r <= 'Z')
    ensures r == c <==> !('A' <= c <= 'Z')
    ensures 'A' <= c <= 'Z' ==> r as int - c as int == 32
  {
    if 'A' <= c <= 'Z' then (c as int - 'A' as int + 'a' as int) as char else c
  }

  /** `s.lower()`, character by character. */
  function Lower(s: string): (r: string)
    ensures |r| == |s|
    ensures forall i :: 0 <= i < |s| ==> r[i] == LowerChar(s[i])
  {
    if s == [] then [] else [LowerChar(s[0])] + Lower(s[1..])
  }

  /** `pat` starts at index `i` of `s`. */
  ghost predicate OccursAt(s: string, pat: string, i: int) {
    0 <= i && i + |pat| <= |s| && s[i..i + |pat|] == pat
  }

  /** `pat` starts nowhere in `s` before index `n`. */
  ghost predicate AbsentBefore(s: string, pat: string, n: int) {
    forall i :: 0 <= i < n ==> !OccursAt(s, pat, i)
  }

  /** `pat` occurs nowhere in `s`. */
  ghost predicate Absent(s: string, pat: string) {
    AbsentBefore(s, pat, |s|)
  }

  /**
   * `s.replace(pat, rep)`: scans `s` from the left and replaces each
   * non-overlapping occurrence of `pat` by `rep`; the text it inserts is
   * not scanned again. Only non-empty patterns are used by the adapter.
   */
  function ReplaceAll(s: string, pat: string, rep: string): (r: string)
    requires pat != []
    ensures rep == pat ==> r == s
    ensures |rep| == |pat| ==> |r| == |s|
    decreases |s|
  {
    if |s| < |pat| then s
    else if s[..|pat|] == pat then rep + ReplaceAll(s[|pat|..], pat, rep)
    else [s[0]] + ReplaceAll(s[1..], pat, rep)
  }

  /** An occurrence in the tail `s[1..]` is an occurrence in `s`, one place further on. */
  lemma OccursInTail(s: string, pat: string, j: nat)
    requires s != []
    ensures OccursAt(s[1..], pat, j) <==> OccursAt(s, pat, j + 1)
  {
  }

  /** Where the pattern does not start at index 0, the first character is copied. */
  lemma ReplaceAllCopiesHead(s: string, pat: string, rep: string)
    requires pat != [] && s != []
    requires !OccursAt(s, pat, 0)
    ensures ReplaceAll(s, pat, rep) == [s[0]] + ReplaceAll(s[1..], pat, rep)
  {
  }

  /** Replacing inserts no character that was in neither the string nor the replacement. */
  lemma {:induction false} ReplaceAllChars(s: string, pat: string, rep: string)
    requires pat != []
    ensures forall c :: c in ReplaceAll(s, pat, rep) ==> c in s || c in rep
    decreases |s|
  {
    if |s| >= |pat| {
      if s[..|pat|] == pat {
        ReplaceAllChars(s[|pat|..], pat, rep);
        assert forall c :: c in s[|pat|..] ==> c in s;
      } else {
        ReplaceAllChars(s[1..], pat, rep);
        assert forall c :: c in s[1..] ==> c in s;
      }
    }
  }

  /** A prefix with no character that could start the pattern holds no occurrence of it. */
  lemma {:induction false} AbsentBeforeNoStart(a: string, b: string, pat: string)
    requires pat != []
    requires forall k :: 0 <= k < |a| ==> a[k] != pat[0]
    ensures AbsentBefore(a + b, pat, |a|)
  {
    forall i | 0 <= i < |a|
      ensures !OccursAt(a + b, pat, i)
    {
      assert (a + b)[i] == a[i];
    }
  }

  /** A string in which the pattern never occurs comes back unchanged. */
  lemma {:induction false} ReplaceAllAbsent(s: string, pat: string, rep: string)
    requires pat != []
    requires Absent(s, pat)
    ensures ReplaceAll(s, pat, rep) == s
    decreases |s|
  {
    if s != [] {
      assert !OccursAt(s, pat, 0);
      ReplaceAllCopiesHead(s, pat, rep);
      forall j | 0 <= j < |s[1..]|
        ensures !OccursAt(s[1..], pat, j)
      {
        OccursInTail(s, pat, j);
      }
      ReplaceAllAbsent(s[1..], pat, rep);
    }
  }

  /**
   * The first occurrence of the pattern, at index `i`, is the first one
   * replaced: everything before it is kept and the scan resumes just after it.
   */
  lemma {:induction false} ReplaceAllFirst(s: string, pat: string, rep: string, i: nat)
    requires pat != []
    requires OccursAt(s, pat, i)
    requires AbsentBefore(s, pat, i)
    ensures ReplaceAll(s, pat, rep) == s[..i] + rep + ReplaceAll(s[i + |pat|..], pat, rep)
    decreases i
  {
    if i == 0 {
      assert s[..|pat|] == pat;
    } else {
      assert !OccursAt(s, pat, 0);
      ReplaceAllCopiesHead(s, pat, rep);
      var t := s[1..];
      OccursInTail(s, pat, i - 1);
      forall j | 0 <= j < i - 1
        ensures !OccursAt(t, pat, j)
      {
        OccursInTail(s, pat, j);
      }
      ReplaceAllFirst(t, pat, rep, i - 1);
      assert t[i - 1 + |pat|..] == s[i + |pat|..];
      assert [s[0]] + t[..i - 1] == s[..i];
    }
  }

  /**
   * A prefix holding no character that could start the pattern is copied
   * through unchanged, and the rest is rewritten as if on its own.
   */
  lemma {:induction false} ReplaceAllSkipsPrefix(a: string, b: string, pat: string, rep: string)
    requires pat != []
    requires forall k :: 0 <= k < |a| ==> a[k] != pat[0]
    ensures ReplaceAll(a + b, pat, rep) == a + ReplaceAll(b, pat, rep)
    decreases |a|
  {
    var s := a + b;
    if a == [] {
      assert s == b;
    } else {
      assert s[0] == a[0];
      assert !OccursAt(s, pat, 0);
      ReplaceAllCopiesHead(s, pat, rep);
      assert s[1..] == a[1..] + b;
      ReplaceAllSkipsPrefix(a[1..], b, pat, rep);
      assert a == [a[0]] + a[1..];
    }
  }

  /**
   * A string that opens with the pattern, followed by text that cannot start
   * it again, becomes the replacement followed by that text.
   */
  lemma ReplaceAllLeading(pat: string, rest: string, rep: string)
    requires pat != []
    requires forall k :: 0 <= k < |rest| ==> rest[k] != pat[0]
    ensures ReplaceAll(pat + rest, pat, rep) == rep + rest
  {
    var s := pat + rest;
    assert s[..|pat|] == pat;
    assert s[|pat|..] == rest;
    ReplaceAllSkipsPrefix(rest, [], pat, rep);
    assert rest + [] == rest;
  }
}
