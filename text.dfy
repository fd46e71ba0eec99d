/**
 * The three functions of Go's `strings` package that the scanner relies on:
 * `TrimSpace` (target clean-up), `Contains` (the connectivity marker) and
 * `ReplaceAll` (artifact names). Strings are sequences of Unicode scalar values.
 */
module Text {

  /** Go's `unicode.IsSpace`: the Latin-1 spaces plus the Unicode White_Space property. */
  predicate IsSpace(c: char): (b: bool)
    ensures b ==> !('!' <= c <= '~')
  {
    || c == '\t' || c == '\n' || c == '\U{000B}' || c == '\U{000C}' || c == '\r' || c == ' '
    || c == '\U{0085}' || c == '\U{00A0}' || c == '\U{1680}'
    || ('\U{2000}' <= c <= '\U{200A}')
    || c == '\U{2028}' || c == '\U{2029}' || c == '\U{202F}' || c == '\U{205F}' || c == '\U{3000}'
  }

  /** A string with no white space at either end (every string `TrimSpace` returns). */
  predicate IsTrimmed(s: string)
  {
    s != [] ==> !IsSpace(s[0]) && !IsSpace(s[|s| - 1])
  }

  /** Removes the leading white space. */
  function TrimLeading(s: string): string
    decreases |s|
  {
    if s != [] && IsSpace(s[0]) then TrimLeading(s[1..]) else s
  }

  /** Removes the trailing white space. */
  function TrimTrailing(s: string): string
    decreases |s|
  {
    if s != [] && IsSpace(s[|s| - 1]) then TrimTrailing(s[..|s| - 1]) else s
  }

  /** `strings.TrimSpace`: leaves no white space at either end and never lengthens its input. */
  function TrimSpace(s: string): (r: string)
    ensures IsTrimmed(r) && |r| <= |s|
  {
    var t := TrimLeading(s);
    TrimLeadingSpec(s);
    TrimTrailingSpec(t);
    assert TrimTrailing(t) != [] ==> TrimTrailing(t)[0] == t[0];
    TrimTrailing(t)
  }

  /** What `TrimLeading` keeps is a suffix, everything dropped is white space, and it starts with a non-space. */
  lemma {:induction false} TrimLeadingSpec(s: string)
    ensures |TrimLeading(s)| <= |s| && TrimLeading(s) == s[|s| - |TrimLeading(s)|..]
    ensures forall k :: 0 <= k < |s| - |TrimLeading(s)| ==> IsSpace(s[k])
    ensures TrimLeading(s) != [] ==> !IsSpace(TrimLeading(s)[0])
    decreases |s|
  {
    if s != [] && IsSpace(s[0]) {
      TrimLeadingSpec(s[1..]);
    }
  }

  /** What `TrimTrailing` keeps is a prefix, everything dropped is white space, and it ends with a non-space. */
  lemma {:induction false} TrimTrailingSpec(s: string)
    ensures |TrimTrailing(s)| <= |s| && TrimTrailing(s) == s[..|TrimTrailing(s)|]
    ensures forall k :: |TrimTrailing(s)| <= k < |s| ==> IsSpace(s[k])
    ensures TrimTrailing(s) != [] ==> !IsSpace(TrimTrailing(s)[|TrimTrailing(s)| - 1])
    decreases |s|
  {
    if s != [] && IsSpace(s[|s| - 1]) {
      TrimTrailingSpec(s[..|s| - 1]);
    }
  }

  /** `TrimSpace` yields the empty string exactly for input that is white space only. */
  lemma TrimSpaceEmpty(s: string)
    ensures TrimSpace(s) == [] <==> forall k :: 0 <= k < |s| ==> IsSpace(s[k])
  {
    var t := TrimLeading(s);
    var r := TrimTrailing(t);
    TrimLeadingSpec(s);
    TrimTrailingSpec(t);
    assert r == [] ==> t == [];
    assert t != [] ==> t[0] == s[|s| - |t|];
  }

  /** `TrimSpace` keeps a contiguous slice of its input, and everything it drops is white space. */
  lemma TrimSpaceSlice(s: string) returns (i: nat)
    ensures i + |TrimSpace(s)| <= |s|
    ensures TrimSpace(s) == s[i..i + |TrimSpace(s)|]
    ensures forall k :: 0 <= k < i ==> IsSpace(s[k])
    ensures forall k :: i + |TrimSpace(s)| <= k < |s| ==> IsSpace(s[k])
  {
    var t := TrimLeading(s);
    var r := TrimTrailing(t);
    TrimLeadingSpec(s);
    TrimTrailingSpec(t);
    assert r == TrimSpace(s);
    i := |s| - |t|;
    assert t == s[i..];
    assert r == t[..|r|] == s[i..i + |r|];
    forall k | i + |r| <= k < |s| ensures IsSpace(s[k]) {
      assert s[k] == t[k - i];
    }
  }

  /** A string that is already trimmed is left alone, so `TrimSpace` is idempotent. */
  lemma TrimSpaceOfTrimmed(s: string)
    requires IsTrimmed(s)
    ensures TrimSpace(s) == s
  {
    assert TrimLeading(s) == s;
    assert TrimTrailing(s) == s;
  }

  lemma TrimSpaceIdempotent(s: string)
    ensures TrimSpace(TrimSpace(s)) == TrimSpace(s)
  {
    TrimSpaceOfTrimmed(TrimSpace(s));
  }

  /** Leading white space in front of a string that starts with a non-space is what `TrimLeading` drops. */
  lemma {:induction false} TrimLeadingSpaces(pre: string, s: string)
    requires forall k :: 0 <= k < |pre| ==> IsSpace(pre[k])
    requires s != [] && !IsSpace(s[0])
    ensures TrimLeading(pre + s) == s
    decreases |pre|
  {
    if pre == [] {
      assert pre + s == s;
    } else {
      var t := pre + s;
      assert t[0] == pre[0];
      assert TrimLeading(t) == TrimLeading(t[1..]);
      assert t[1..] == pre[1..] + s;
      TrimLeadingSpaces(pre[1..], s);
    }
  }

  /** Trailing white space after a string that ends with a non-space is what `TrimTrailing` drops. */
  lemma {:induction false} TrimTrailingSpaces(s: string, post: string)
    requires forall k :: 0 <= k < |post| ==> IsSpace(post[k])
    requires s != [] && !IsSpace(s[|s| - 1])
    ensures TrimTrailing(s + post) == s
    decreases |post|
  {
    if post == [] {
      assert s + post == s;
    } else {
      var init := post[..|post| - 1];
      var t := s + post;
      assert t[|t| - 1] == post[|post| - 1];
      assert TrimTrailing(t) == TrimTrailing(t[..|t| - 1]);
      assert t[..|t| - 1] == s + init;
      TrimTrailingSpaces(s, init);
    }
  }

  /** `TrimSpace` removes exactly the white space around a non-empty trimmed string. */
  lemma TrimSpaceAround(pre: string, s: string, post: string)
    requires forall k :: 0 <= k < |pre| ==> IsSpace(pre[k])
    requires forall k :: 0 <= k < |post| ==> IsSpace(post[k])
    requires s != [] && IsTrimmed(s)
    ensures TrimSpace(pre + s + post) == s
  {
    assert pre + s + post == pre + (s + post);
    TrimLeadingSpaces(pre, s + post);
    TrimTrailingSpaces(s, post);
  }

  /** `p` occurs in `s` starting at index `i`. */
  predicate OccursAt(s: string, p: string, i: nat)
  {
    i + |p| <= |s| && s[i..i + |p|] == p
  }

  /** The reference reading of "`s` contains `p`": some index where `p` occurs. */
  ghost predicate Occurs(s: string, p: string)
  {
    exists i: nat :: OccursAt(s, p, i)
  }

  /** A slice of the tail of `s` is the slice of `s` one index further on. */
  lemma TailSlice(s: string, i: nat, j: nat)
    requires s != [] && i <= j <= |s| - 1
    ensures s[1..][i..j] == s[i + 1..j + 1]
  {
    forall k | 0 <= k < j - i
      ensures s[1..][i..j][k] == s[i + 1..j + 1][k]
    {
    }
  }

  /** An occurrence at index 0 is a prefix, and a prefix is an occurrence at index 0. */
  lemma OccursAtFront(s: string, p: string)
    ensures OccursAt(s, p, 0) <==> p <= s
  {
    if p <= s {
      assert s[0..|p|] == p;
    }
  }

  /** An occurrence in the tail of `s` is an occurrence in `s`. */
  lemma OccursInTail(s: string, p: string, i: nat)
    requires s != [] && OccursAt(s[1..], p, i)
    ensures OccursAt(s, p, i + 1)
  {
    TailSlice(s, i, i + |p|);
  }

  /** An occurrence in `s` after index 0 is an occurrence in its tail. */
  lemma OccursPastFront(s: string, p: string, i: nat)
    requires 0 < i && OccursAt(s, p, i)
    ensures OccursAt(s[1..], p, i - 1)
  {
    TailSlice(s, i - 1, i - 1 + |p|);
  }

  /** An occurrence is either at the front or one character further on. */
  lemma OccursStep(s: string, p: string)
    ensures Occurs(s, p) <==> p <= s || (s != [] && Occurs(s[1..], p))
  {
    OccursAtFront(s, p);
    if s != [] && Occurs(s[1..], p) {
      var i: nat :| OccursAt(s[1..], p, i);
      OccursInTail(s, p, i);
    }
    if Occurs(s, p) && !(p <= s) {
      var i: nat :| OccursAt(s, p, i);
      OccursPastFront(s, p, i);
    }
  }

  /** `strings.Contains`, as a left-to-right scan: it finds `p` exactly when `p` occurs in `s`. */
  predicate Contains(s: string, p: string): (b: bool)
    ensures b <==> Occurs(s, p)
    decreases |s|
  {
    OccursStep(s, p);
    p <= s || (s != [] && Contains(s[1..], p))
  }

  /** Every character of a pattern that occurs in `s` is a character of `s`. */
  lemma {:induction false} ContainsChars(s: string, p: string, c: char)
    requires Contains(s, p) && c in p
    ensures c in s
    decreases |s|
  {
    if p <= s {
      var k :| 0 <= k < |p| && p[k] == c;
      assert s[k] == c;
    } else {
      ContainsChars(s[1..], p, c);
    }
  }

  /**
   * `strings.ReplaceAll(s, old, new)`. For a non-empty `old` the scan is left to
   * right and the matches it replaces do not overlap, as Go's `Index`-driven loop
   * does; for an empty `old`, Go inserts `new` before every character and at the end.
   */
  function ReplaceAll(s: string, pat: string, rep: string): string
    decreases |s|
  {
    if pat == [] then
      rep + (if s == [] then [] else [s[0]] + ReplaceAll(s[1..], pat, rep))
    else if pat <= s then
      rep + ReplaceAll(s[|pat|..], pat, rep)
    else if s == [] then
      []
    else
      [s[0]] + ReplaceAll(s[1..], pat, rep)
  }

  /** With no occurrence of `old`, `ReplaceAll` is the identity. */
  lemma {:induction false} ReplaceAllAbsent(s: string, pat: string, rep: string)
    requires pat != [] && !Contains(s, pat)
    ensures ReplaceAll(s, pat, rep) == s
    decreases |s|
  {
    if s != [] {
      ReplaceAllAbsent(s[1..], pat, rep);
    }
  }

  /** With an empty pattern, the replacement lands before every character and at the end. */
  lemma {:induction false} ReplaceAllEmptyPattern(s: string, rep: string)
    ensures |ReplaceAll(s, [], rep)| == |s| + (|s| + 1) * |rep|
    decreases |s|
  {
    if s != [] {
      ReplaceAllEmptyPattern(s[1..], rep);
      assert (|s| + 1) * |rep| == |s| * |rep| + |rep|;
      assert |s| * |rep| == (|s| - 1 + 1) * |rep|;
    }
  }

  /** A replacement no longer than the pattern never lengthens the string. */
  lemma {:induction false} ReplaceAllShrinks(s: string, pat: string, rep: string)
    requires pat != [] && |rep| <= |pat|
    ensures |ReplaceAll(s, pat, rep)| <= |s|
    decreases |s|
  {
    if pat <= s {
      ReplaceAllShrinks(s[|pat|..], pat, rep);
    } else if s != [] {
      ReplaceAllShrinks(s[1..], pat, rep);
    }
  }

  /** Replacing one character by another maps the string character for character. */
  lemma {:induction false} ReplaceAllChar(s: string, c: char, d: char)
    ensures |ReplaceAll(s, [c], [d])| == |s|
    ensures forall k :: 0 <= k < |s| ==>
              ReplaceAll(s, [c], [d])[k] == (if s[k] == c then d else s[k])
    decreases |s|
  {
    if s != [] {
      ReplaceAllChar(s[1..], c, d);
      var r := ReplaceAll(s, [c], [d]);
      assert r == [if s[0] == c then d else s[0]] + ReplaceAll(s[1..], [c], [d]);
      forall k | 0 <= k < |s| ensures r[k] == (if s[k] == c then d else s[k]) {
        if k > 0 {
          assert r[k] == ReplaceAll(s[1..], [c], [d])[k - 1];
        }
      }
    }
  }

  /** No match of `pat` starts before index `n` of `s`. */
  predicate NoMatchBefore(s: string, pat: string, n: nat)
  {
    forall j :: 0 <= j < n <= |s| ==> !(pat <= s[j..])
  }

  /** Dropping the first character keeps "no match before" for one index less. */
  lemma NoMatchBeforeTail(s: string, pat: string, n: nat)
    requires 0 < n <= |s| && NoMatchBefore(s, pat, n)
    ensures !(pat <= s) && NoMatchBefore(s[1..], pat, n - 1)
  {
    assert s[0..] == s;
    forall j | 0 <= j < n - 1
      ensures !(pat <= s[1..][j..])
    {
      assert s[1..][j..] == s[j + 1..];
    }
  }

  /** Where no match starts at the front, `ReplaceAll` copies the first character. */
  lemma ReplaceAllSkip(s: string, pat: string, rep: string)
    requires pat != [] && s != [] && !(pat <= s)
    ensures ReplaceAll(s, pat, rep) == [s[0]] + ReplaceAll(s[1..], pat, rep)
  {
  }

  /**
   * If no match of `old` starts before index `n`, `ReplaceAll` copies the
   * first `n` characters and then carries on as if they were not there.
   */
  lemma {:induction false} ReplaceAllKeepsPrefix(s: string, n: nat, pat: string, rep: string)
    requires pat != [] && n <= |s| && NoMatchBefore(s, pat, n)
    ensures ReplaceAll(s, pat, rep) == s[..n] + ReplaceAll(s[n..], pat, rep)
    decreases n
  {
    if n > 0 {
      var t := s[1..];
      calc {
        ReplaceAll(s, pat, rep);
        { NoMatchBeforeTail(s, pat, n); ReplaceAllSkip(s, pat, rep); }
        [s[0]] + ReplaceAll(t, pat, rep);
        { NoMatchBeforeTail(s, pat, n);
          ReplaceAllKeepsPrefix(t, n - 1, pat, rep);
          assert t[n - 1..] == s[n..]; }
        [s[0]] + (t[..n - 1] + ReplaceAll(s[n..], pat, rep));
        { assert s[..n] == [s[0]] + t[..n - 1]; }
        s[..n] + ReplaceAll(s[n..], pat, rep);
      }
    } else {
      assert s[0..] == s;
    }
  }
}
