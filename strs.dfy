// The parts of Go's `strings` package the core uses: Index, HasPrefix, CutPrefix and ReplaceAll.
module Strs {
  predicate OccursAt(s: string, pat: string, i: int) {
    0 <= i && i + |pat| <= |s| && s[i..i + |pat|] == pat
  }

  predicate HasPrefix(s: string, prefix: string) {
    |prefix| <= |s| && s[..|prefix|] == prefix
  }

  lemma OccursAtTail(s: string, pat: string, i: int)
    requires |s| > 0 && 0 <= i
    ensures OccursAt(s[1..], pat, i) <==> OccursAt(s, pat, i + 1)
  {
    if i + |pat| <= |s| - 1 {
      assert s[1..][i..i + |pat|] == s[i + 1..i + 1 + |pat|];
    }
  }

  /** strings.Index: the least index at which `pat` occurs in `s`, or -1 when it never occurs. */
  function Index(s: string, pat: string): (r: int)
    ensures -1 <= r <= |s|
    ensures r == -1 <==> forall i :: !OccursAt(s, pat, i)
    ensures r >= 0 ==> OccursAt(s, pat, r) && forall i :: 0 <= i < r ==> !OccursAt(s, pat, i)
  {
    if |s| < |pat| then -1
    else if s[..|pat|] == pat then
      assert OccursAt(s, pat, 0);
      0
    else
      var k := Index(s[1..], pat);
      assert forall i | 0 <= i :: OccursAt(s[1..], pat, i) <==> OccursAt(s, pat, i + 1) by {
        forall i | 0 <= i { OccursAtTail(s, pat, i); }
      }
      assert forall i :: OccursAt(s, pat, i) ==> i >= 1;
      assert forall i :: OccursAt(s, pat, i) ==> OccursAt(s[1..], pat, i - 1);
      if k == -1 then -1 else k + 1
  }

  /** strings.CutPrefix: `s` without `prefix`, and whether `s` began with it. */
  function CutPrefix(s: string, prefix: string): (r: (string, bool))
    ensures r.1 <==> HasPrefix(s, prefix)
    ensures r.1 ==> prefix + r.0 == s
    ensures !r.1 ==> r.0 == s
  {
    if HasPrefix(s, prefix) then
      assert prefix + s[|prefix|..] == s;
      (s[|prefix|..], true)
    else (s, false)
  }

  /** strings.ReplaceAll for a non-empty pattern: every leftmost, non-overlapping occurrence is replaced. */
  function ReplaceAll(s: string, from: string, to: string): string
    requires |from| > 0
  {
    if |s| < |from| then s
    else if s[..|from|] == from then to + ReplaceAll(s[|from|..], from, to)
    else [s[0]] + ReplaceAll(s[1..], from, to)
  }

  /** Replacing a text that does not occur changes nothing. */
  lemma {:induction false} ReplaceAllAbsent(s: string, from: string, to: string)
    requires |from| > 0 && Index(s, from) == -1
    ensures ReplaceAll(s, from, to) == s
  {
    if |s| >= |from| {
      assert !OccursAt(s, from, 0);
      forall i ensures !OccursAt(s[1..], from, i) {
        if i >= 0 { OccursAtTail(s, from, i); }
      }
      ReplaceAllAbsent(s[1..], from, to);
    }
  }

  /** After replacing every `c` by a text without `c`, no `c` is left. */
  lemma {:induction false} ReplaceAllRemovesChar(s: string, c: char, to: string)
    requires c !in to
    ensures c !in ReplaceAll(s, [c], to)
  {
    if |s| >= 1 {
      ReplaceAllRemovesChar(s[1..], c, to);
    }
  }

  /** For a one-character pattern, Index finds the first position of that character. */
  lemma {:induction false} IndexOfChar(s: string, c: char)
    ensures Index(s, [c]) == -1 <==> c !in s
    ensures Index(s, [c]) >= 0 ==> Index(s, [c]) < |s| && s[Index(s, [c])] == c && c !in s[..Index(s, [c])]
  {
    if |s| > 0 {
      if s[..1] == [c] {
        assert s[0] == c;
      } else {
        assert s[0] != c;
        IndexOfChar(s[1..], c);
        var k := Index(s[1..], [c]);
        if k >= 0 {
          assert s[..k + 1] == [s[0]] + s[1..][..k];
        } else {
          assert s == [s[0]] + s[1..];
        }
      }
    }
  }

  /** A pattern holding a character that `s` lacks does not occur in `s`. */
  lemma IndexNeedsEveryChar(s: string, pat: string, k: nat)
    requires k < |pat| && pat[k] !in s
    ensures Index(s, pat) == -1
  {
    var i := Index(s, pat);
    if i >= 0 {
      OccurrenceHasChars(s, pat, i, k);
    }
  }

  lemma OccurrenceHasChars(s: string, pat: string, i: int, k: nat)
    requires OccursAt(s, pat, i) && k < |pat|
    ensures pat[k] in s
  {
    assert s[i..i + |pat|][k] == s[i + k];
  }
}
