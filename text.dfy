/** String helpers shared by the chat components: ASCII lower-casing (the
    model of JavaScript's `toLowerCase`), substring search (`includes`) and
    whitespace trimming (`trim`). Strings are sequences of characters. */
module Text {

  datatype Option<T> = None | Some(value: T)

  predicate IsUpper(c: char) { 'A' <= c <= 'Z' }

  predicate IsLower(c: char) { 'a' <= c <= 'z' }

  predicate IsLetter(c: char) { IsUpper(c) || IsLower(c) }

  /** Lower-cases one ASCII letter; every other character is kept. */
  function LowerChar(c: char): (r: char)
    ensures IsUpper(c) ==> IsLower(r) && r as int == c as int + 32
    ensures !IsUpper(c) ==> r == c
  {
    if IsUpper(c) then (c as int + 32) as char else c
  }

  /** `s.toLowerCase()`, restricted to ASCII letters. */
  function Lower(s: string): (r: string)
    ensures |r| == |s|
    ensures forall i :: 0 <= i < |s| ==> r[i] == LowerChar(s[i])
  {
    if s == [] then [] else [LowerChar(s[0])] + Lower(s[1..])
  }

  /** No upper-case ASCII letter occurs in `s`. */
  predicate IsLowered(s: string) { forall i :: 0 <= i < |s| ==> !IsUpper(s[i]) }

  lemma LowerIsLowered(s: string)
    ensures IsLowered(Lower(s))
    ensures IsLowered(s) ==> Lower(s) == s
  {
  }

  /** Lower-casing twice is lower-casing once. */
  lemma LowerIdempotent(s: string)
    ensures Lower(Lower(s)) == Lower(s)
  {
    LowerIsLowered(s);
    LowerIsLowered(Lower(s));
  }

  lemma LowerConcat(a: string, b: string)
    ensures Lower(a + b) == Lower(a) + Lower(b)
  {
  }

  /** `t` occurs in `s` starting at its first character. */
  predicate StartsWith(s: string, t: string)
    ensures StartsWith(s, t) ==> |t| <= |s|
    ensures t == [] ==> StartsWith(s, t)
  {
    t == [] || (s != [] && s[0] == t[0] && StartsWith(s[1..], t[1..]))
  }

  /** `s.includes(t)`: `t` occurs somewhere in `s`. */
  predicate Contains(s: string, t: string)
    ensures Contains(s, t) ==> |t| <= |s|
    ensures t == [] ==> Contains(s, t)
  {
    StartsWith(s, t) || (s != [] && Contains(s[1..], t))
  }

  /** `t` occurs in `s` at index `k`. */
  predicate OccursAt(s: string, t: string, k: int)
  {
    0 <= k && k + |t| <= |s| && s[k..k + |t|] == t
  }

  /** Index-based reading of StartsWith. */
  lemma {:induction false} StartsWithIsPrefix(s: string, t: string)
    ensures StartsWith(s, t) <==> OccursAt(s, t, 0)
  {
    if t != [] && s != [] {
      StartsWithIsPrefix(s[1..], t[1..]);
      if OccursAt(s, t, 0) {
        assert s[1..][..|t| - 1] == t[1..];
      }
      if StartsWith(s, t) {
        assert s[..|t|] == [s[0]] + s[1..][..|t| - 1];
      }
    }
  }

  /** A slice of the tail of `s` is the slice of `s` one further on. */
  lemma SliceOfTail(s: string, i: int, j: int)
    requires 1 <= i <= j <= |s|
    ensures s[1..][i - 1..j - 1] == s[i..j]
  {
    forall n | 0 <= n < j - i
      ensures s[1..][i - 1..j - 1][n] == s[i..j][n]
    {
      assert s[1..][i - 1 + n] == s[i + n];
    }
  }

  /** An occurrence at an index is found by Contains. */
  lemma {:induction false} OccurrenceIsContained(s: string, t: string, k: int)
    requires OccursAt(s, t, k)
    ensures Contains(s, t)
    decreases k
  {
    if k == 0 {
      StartsWithIsPrefix(s, t);
    } else {
      SliceOfTail(s, k, k + |t|);
      OccurrenceIsContained(s[1..], t, k - 1);
    }
  }

  /** What Contains finds occurs at some index. */
  lemma {:induction false} ContainedOccurs(s: string, t: string) returns (k: int)
    requires Contains(s, t)
    ensures OccursAt(s, t, k)
    decreases |s|
  {
    StartsWithIsPrefix(s, t);
    if StartsWith(s, t) {
      k := 0;
    } else {
      var j := ContainedOccurs(s[1..], t);
      SliceOfTail(s, j + 1, j + 1 + |t|);
      k := j + 1;
    }
  }

  /** Contains finds exactly the strings that occur at some index. */
  lemma ContainsIsOccurrence(s: string, t: string)
    ensures Contains(s, t) <==> exists k :: OccursAt(s, t, k)
  {
    if Contains(s, t) {
      var k := ContainedOccurs(s, t);
    }
    if exists k :: OccursAt(s, t, k) {
      var k :| OccursAt(s, t, k);
      OccurrenceIsContained(s, t, k);
    }
  }

  /** An occurrence in either half is an occurrence in the whole. */
  lemma ContainsInConcat(a: string, b: string, t: string)
    ensures Contains(a, t) ==> Contains(a + b, t)
    ensures Contains(b, t) ==> Contains(a + b, t)
  {
    ContainsIsOccurrence(a, t);
    ContainsIsOccurrence(b, t);
    ContainsIsOccurrence(a + b, t);
    if Contains(a, t) {
      var k :| OccursAt(a, t, k);
      assert (a + b)[k..k + |t|] == a[k..k + |t|];
      assert OccursAt(a + b, t, k);
    }
    if Contains(b, t) {
      var k :| OccursAt(b, t, k);
      assert (a + b)[|a| + k..|a| + k + |t|] == b[k..k + |t|];
      assert OccursAt(a + b, t, |a| + k);
    }
  }

  /** Every character of an occurring string is a character of `s`. */
  lemma ContainsHasChars(s: string, t: string)
    ensures Contains(s, t) ==> forall j :: 0 <= j < |t| ==> t[j] in s
  {
    ContainsIsOccurrence(s, t);
    if Contains(s, t) {
      var k :| OccursAt(s, t, k);
      forall j | 0 <= j < |t| ensures t[j] in s {
        assert s[k + j] == s[k..k + |t|][j];
      }
    }
  }

  /** A string holding a character that `s` lacks does not occur in `s`. */
  lemma MissingCharRulesOut(s: string, t: string, x: char)
    requires x in t && x !in s
    ensures !Contains(s, t)
  {
    ContainsHasChars(s, t);
  }

  /** Every string occurs in any string built around it. */
  lemma ContainsInfix(a: string, t: string, b: string)
    ensures Contains(a + t + b, t)
  {
    assert (a + t + b)[|a|..|a| + |t|] == t;
    assert OccursAt(a + t + b, t, |a|);
    ContainsIsOccurrence(a + t + b, t);
  }

  /** An occurrence that straddles the seam of `a + b` covers the last
      character of `a` and the first of `b`; when either of them is not a
      character of `t`, every occurrence lies inside one of the halves. */
  lemma ContainsAcrossSeam(a: string, b: string, t: string)
    requires t != []
    requires (a != [] && a[|a| - 1] !in t) || (b != [] && b[0] !in t)
    ensures Contains(a + b, t) <==> Contains(a, t) || Contains(b, t)
  {
    ContainsInConcat(a, b, t);
    if Contains(a + b, t) {
      ContainsIsOccurrence(a + b, t);
      var k :| OccursAt(a + b, t, k);
      if k + |t| <= |a| {
        assert a[k..k + |t|] == (a + b)[k..k + |t|];
        assert OccursAt(a, t, k);
        ContainsIsOccurrence(a, t);
      } else if k >= |a| {
        assert b[k - |a|..k - |a| + |t|] == (a + b)[k..k + |t|];
        assert OccursAt(b, t, k - |a|);
        ContainsIsOccurrence(b, t);
      } else {
        StraddleCoversSeam(a, b, t, k);
        assert false;
      }
    }
  }

  lemma StraddleCoversSeam(a: string, b: string, t: string, k: int)
    requires OccursAt(a + b, t, k) && k < |a| < k + |t|
    ensures a[|a| - 1] in t && b[0] in t
  {
    assert a[|a| - 1] == (a + b)[k..k + |t|][|a| - 1 - k];
    assert b[0] == (a + b)[k..k + |t|][|a| - k];
  }

  /** The characters JavaScript's `trim` removes: the WhiteSpace and
      LineTerminator code points of ECMAScript (tab, vertical tab, form feed,
      space, no-break space, byte-order mark, the space separators of Unicode
      category Zs, line feed, carriage return, line and paragraph separator). */
  predicate IsWhitespace(c: char)
  {
    c == '\t' || c == '\n' || c == '\U{000B}' || c == '\U{000C}' || c == '\r' || c == ' '
    || c == '\U{00A0}' || c == '\U{1680}' || ('\U{2000}' <= c <= '\U{200A}')
    || c == '\U{2028}' || c == '\U{2029}' || c == '\U{202F}' || c == '\U{205F}'
    || c == '\U{3000}' || c == '\U{FEFF}'
  }

  /** Every character of `s` is whitespace (the empty string included). */
  predicate IsBlank(s: string) { forall i :: 0 <= i < |s| ==> IsWhitespace(s[i]) }

  /** `s` with its leading whitespace removed: a suffix of `s` that does not
      start with whitespace. */
  function TrimStart(s: string): (r: string)
    ensures |r| <= |s| && r == s[|s| - |r|..]
    ensures r != [] ==> !IsWhitespace(r[0])
  {
    if s != [] && IsWhitespace(s[0]) then TrimStart(s[1..]) else s
  }

  /** What `TrimStart` cuts away is whitespace. */
  lemma {:induction false} TrimStartCutsBlank(s: string)
    ensures IsBlank(s[..|s| - |TrimStart(s)|])
  {
    if s != [] && IsWhitespace(s[0]) {
      var n := |s| - |TrimStart(s[1..])|;
      TrimStartCutsBlank(s[1..]);
      forall i | 0 <= i < n
        ensures IsWhitespace(s[..n][i])
      {
        if i > 0 {
          assert s[..n][i] == s[1..][..n - 1][i - 1];
        }
      }
    }
  }

  /** `s` with its trailing whitespace removed: a prefix of `s` that does not
      end with whitespace. */
  function TrimEnd(s: string): (r: string)
    ensures |r| <= |s| && r == s[..|r|]
    ensures r != [] ==> !IsWhitespace(r[|r| - 1])
  {
    if s != [] && IsWhitespace(s[|s| - 1]) then TrimEnd(s[..|s| - 1]) else s
  }

  /** What `TrimEnd` cuts away is whitespace. */
  lemma {:induction false} TrimEndCutsBlank(s: string)
    ensures IsBlank(s[|TrimEnd(s)|..])
  {
    if s != [] && IsWhitespace(s[|s| - 1]) {
      var r := TrimEnd(s[..|s| - 1]);
      TrimEndCutsBlank(s[..|s| - 1]);
      assert s[|r|..] == s[..|s| - 1][|r|..] + [s[|s| - 1]];
    }
  }

  /** `s.trim()`: never longer than `s`, and neither starting nor ending with
      whitespace. */
  function Trim(s: string): (r: string)
    ensures |r| <= |s|
    ensures r != [] ==> !IsWhitespace(r[0]) && !IsWhitespace(r[|r| - 1])
  {
    var m := TrimStart(s);
    var r := TrimEnd(m);
    assert r != [] ==> r[0] == m[0];
    r
  }

  /** Where the trimmed text starts in `s`. */
  function TrimFrom(s: string): (i: nat)
    ensures i <= |s|
  {
    |s| - |TrimStart(s)|
  }

  /** Where the trimmed text ends in `s`. */
  function TrimTo(s: string): (j: nat)
    ensures TrimFrom(s) <= j <= |s|
  {
    TrimFrom(s) + |Trim(s)|
  }

  /** Trim keeps the slice of `s` between its two cut points and drops only
      whitespace on either side. */
  lemma TrimIsCore(s: string)
    ensures Trim(s) == s[TrimFrom(s)..TrimTo(s)]
    ensures IsBlank(s[..TrimFrom(s)]) && IsBlank(s[TrimTo(s)..])
  {
    var m := TrimStart(s);
    var r := TrimEnd(m);
    TrimStartCutsBlank(s);
    TrimEndCutsBlank(m);
    assert s[TrimFrom(s)..] == m;
    assert s[TrimTo(s)..] == m[|r|..];
  }

  /** A string trims to nothing exactly when it is blank. */
  lemma TrimEmptyIffBlank(s: string)
    ensures Trim(s) == [] <==> IsBlank(s)
  {
    var m := TrimStart(s);
    if Trim(s) == [] {
      TrimStartCutsBlank(s);
      TrimEndCutsBlank(m);
      assert m[0..] == m;
      assert s == s[..|s| - |m|] + m;
    } else {
      assert m != [] && m[0] == s[|s| - |m|];
      assert !IsWhitespace(s[|s| - |m|]);
    }
  }

  /** Trimming an already trimmed string changes nothing. */
  lemma TrimIdempotent(s: string)
    ensures Trim(Trim(s)) == Trim(s)
  {
    var r := Trim(s);
    if r != [] {
      assert TrimStart(r) == r;
      assert TrimEnd(r) == r;
    }
  }
}
