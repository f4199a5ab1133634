/** The JavaScript string operations the search filters use: toLowerCase and includes. */
module Text {

  /** Upper-case letters toLowerCase changes: ASCII A-Z and the Latin-1 capitals À-Þ except ×. */
  predicate IsUpper(c: char) {
    ('A' <= c <= 'Z') || ('À' <= c <= 'Þ' && c != '×')
  }

  function LowerChar(c: char): (l: char)
    ensures !IsUpper(l)
    ensures IsUpper(c) ==> l as int == c as int + 32
    ensures !IsUpper(c) ==> l == c
  {
    if IsUpper(c) then (c as int + 32) as char else c
  }

  /** `s.toLowerCase()`, character by character. */
  function ToLower(s: string): (r: string)
    ensures |r| == |s|
    ensures forall i :: 0 <= i < |s| ==> r[i] == LowerChar(s[i])
  {
    seq(|s|, i requires 0 <= i < |s| => LowerChar(s[i]))
  }

  lemma ToLowerConcat(a: string, b: string)
    ensures ToLower(a + b) == ToLower(a) + ToLower(b)
  {
  }

  /** Lowering twice is lowering once: a lowered query is left as it is. */
  lemma ToLowerIdempotent(s: string)
    ensures ToLower(ToLower(s)) == ToLower(s)
  {
  }

  /** `s.includes(q)`: q occurs in s at some position (the empty string occurs everywhere). */
  predicate Includes(s: string, q: string)
    decreases |s|
  {
    q <= s || (|s| > 0 && Includes(s[1..], q))
  }

  /** q occurs in s starting at index i. */
  predicate OccursAt(s: string, q: string, i: int) {
    0 <= i <= |s| - |q| && s[i..i + |q|] == q
  }

  /** An occurrence at any index is found by Includes. */
  lemma {:induction false} OccursAtIncludes(s: string, q: string, i: int)
    requires OccursAt(s, q, i)
    ensures Includes(s, q)
    decreases i
  {
    if i == 0 {
      assert s[..|q|] == q;
    } else {
      assert s[1..][i - 1..i - 1 + |q|] == s[i..i + |q|];
      OccursAtIncludes(s[1..], q, i - 1);
    }
  }

  /** What Includes finds occurs at some index. */
  lemma {:induction false} IncludesOccursAt(s: string, q: string) returns (i: int)
    requires Includes(s, q)
    ensures OccursAt(s, q, i)
    decreases |s|
  {
    if q <= s {
      i := 0;
      assert s[0..0 + |q|] == s[..|q|];
    } else {
      var k := IncludesOccursAt(s[1..], q);
      i := k + 1;
      assert s[1..][k..k + |q|] == s[i..i + |q|];
    }
  }

  /** Includes agrees with the positional definition of a substring. */
  lemma IncludesAt(s: string, q: string)
    ensures Includes(s, q) <==> exists i :: OccursAt(s, q, i)
  {
    if Includes(s, q) {
      var i := IncludesOccursAt(s, q);
    }
    if exists i :: OccursAt(s, q, i) {
      var i :| OccursAt(s, q, i);
      OccursAtIncludes(s, q, i);
    }
  }

  /** A non-empty query whose first character never appears in s does not occur in s. */
  lemma {:induction false} FirstCharAbsent(s: string, q: string)
    requires |q| > 0 && forall i :: 0 <= i < |s| ==> s[i] != q[0]
    ensures !Includes(s, q)
    decreases |s|
  {
    if |s| > 0 {
      assert s[0] != q[0];
      assert forall i :: 0 <= i < |s[1..]| ==> s[1..][i] == s[i + 1];
      FirstCharAbsent(s[1..], q);
    }
  }

  /** If a longer query occurs in s, so does every prefix of it. */
  lemma {:induction false} IncludesPrefix(s: string, q: string, more: string)
    requires Includes(s, q + more)
    ensures Includes(s, q)
    decreases |s|
  {
    if q + more <= s {
      assert q <= s by {
        assert s[..|q|] == (q + more)[..|q|];
      }
    } else {
      IncludesPrefix(s[1..], q, more);
    }
  }
}

/** Order-preserving subsequences, for the results of the list filters. */
module Sequences {

  /** `a` is `b` with some elements removed, the rest kept in their order. */
  predicate IsSubsequence<T(==)>(a: seq<T>, b: seq<T>)
    decreases |b|
  {
    a == [] || (b != [] && ((a[0] == b[0] && IsSubsequence(a[1..], b[1..])) || IsSubsequence(a, b[1..])))
  }

  lemma {:induction false} SubsequenceCons<T>(x: T, a: seq<T>, b: seq<T>)
    requires IsSubsequence(a, b)
    ensures IsSubsequence(a, [x] + b)
    ensures IsSubsequence([x] + a, [x] + b)
  {
    assert ([x] + b)[1..] == b;
    assert ([x] + a)[1..] == a;
  }
}
