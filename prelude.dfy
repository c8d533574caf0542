/** Small building blocks shared by every module: optional values, the
    outcome of a remote call, order-preserving filters, left-fold sums and
    the JavaScript string operations the application relies on
    (`trim`, `split`, the `\s` character class). */
module Prelude {

  datatype Option<T> = None | Some(value: T)

  /** The outcome of a call to the remote data store: the data it returns,
      or the error it reports. */
  datatype Response<T> = Success(data: T) | Failure(error: string)

  // ---------------------------------------------------------------------
  // Sequences

  /** `Array.prototype.filter`: the elements that satisfy `p`, in order. */
  function Filter<T>(s: seq<T>, p: T -> bool): (r: seq<T>)
    ensures |r| <= |s|
    ensures forall i :: 0 <= i < |r| ==> r[i] in s && p(r[i])
    ensures forall i :: 0 <= i < |s| && p(s[i]) ==> s[i] in r
  {
    if s == [] then [] else (if p(s[0]) then [s[0]] else []) + Filter(s[1..], p)
  }

  /** `Array.prototype.find`: the first element that satisfies `p`, if any. */
  function Find<T>(s: seq<T>, p: T -> bool): (r: Option<T>)
    ensures r.None? <==> forall i :: 0 <= i < |s| ==> !p(s[i])
    ensures r.Some? ==> exists i :: 0 <= i < |s| && s[i] == r.value && p(s[i])
                                    && forall j :: 0 <= j < i ==> !p(s[j])
  {
    if s == [] then None
    else if p(s[0]) then Some(s[0])
    else
      var r := Find(s[1..], p);
      assert forall i :: 0 < i < |s| ==> s[i] == s[1..][i - 1];
      assert r.Some? ==> exists i :: 0 <= i < |s| && s[i] == r.value && p(s[i])
                                     && forall j :: 0 <= j < i ==> !p(s[j]) by {
        if r.Some? {
          var k :| 0 <= k < |s[1..]| && s[1..][k] == r.value && p(s[1..][k])
                   && forall j :: 0 <= j < k ==> !p(s[1..][j]);
          assert s[k + 1] == r.value;
        }
      }
      r
  }

  /** `a` can be obtained from `b` by deleting elements. */
  predicate IsSubsequence<T(==)>(a: seq<T>, b: seq<T>)
    decreases |b|
  {
    if a == [] then true
    else if b == [] then false
    else if a[0] == b[0] then IsSubsequence(a[1..], b[1..])
    else IsSubsequence(a, b[1..])
  }

  lemma {:induction false} FilterIsSubsequence<T>(s: seq<T>, p: T -> bool)
    ensures IsSubsequence(Filter(s, p), s)
  {
    if s != [] {
      FilterIsSubsequence(s[1..], p);
      if p(s[0]) {
        assert Filter(s, p)[1..] == Filter(s[1..], p);
      } else {
        assert Filter(s, p) == Filter(s[1..], p);
        SubsequenceCons(Filter(s[1..], p), s[1..], s[0]);
        assert [s[0]] + s[1..] == s;
      }
    }
  }

  /** A subsequence of `b` is a subsequence of `b` with anything in front. */
  lemma {:induction false} SubsequenceCons<T>(a: seq<T>, b: seq<T>, x: T)
    requires IsSubsequence(a, b)
    ensures IsSubsequence(a, [x] + b)
    decreases |b|, 1
  {
    assert ([x] + b)[1..] == b;
    if a != [] && a[0] == x {
      SubsequenceTail(a, b);
    }
  }

  lemma {:induction false} SubsequenceTail<T>(a: seq<T>, b: seq<T>)
    requires a != [] && IsSubsequence(a, b)
    ensures IsSubsequence(a[1..], b)
    decreases |b|, 0
  {
    if a[0] == b[0] {
      SubsequenceCons(a[1..], b[1..], b[0]);
    } else {
      SubsequenceTail(a, b[1..]);
      SubsequenceCons(a[1..], b[1..], b[0]);
    }
    assert [b[0]] + b[1..] == b;
  }

  lemma {:induction false} FilterAppend<T>(a: seq<T>, b: seq<T>, p: T -> bool)
    ensures Filter(a + b, p) == Filter(a, p) + Filter(b, p)
  {
    if a == [] {
      assert a + b == b;
    } else {
      assert (a + b)[1..] == a[1..] + b;
      FilterAppend(a[1..], b, p);
    }
  }

  lemma {:induction false} FilterNone<T>(s: seq<T>, p: T -> bool)
    requires forall i :: 0 <= i < |s| ==> !p(s[i])
    ensures Filter(s, p) == []
  {
    if s != [] {
      FilterNone(s[1..], p);
    }
  }

  /** Membership in a filtered sequence. */
  lemma FilterMembers<T>(s: seq<T>, p: T -> bool)
    ensures forall x :: x in Filter(s, p) <==> x in s && p(x)
  {
    var r := Filter(s, p);
    forall x | x in r ensures x in s && p(x) {
      var i :| 0 <= i < |r| && r[i] == x;
    }
  }

  /** Sequences with the same multiset have the same members. */
  lemma SameMembers<T>(a: seq<T>, b: seq<T>)
    requires multiset(a) == multiset(b)
    ensures forall x :: x in a <==> x in b
  {
    forall x ensures x in a <==> x in b {
      assert x in a <==> x in multiset(a);
      assert x in b <==> x in multiset(b);
    }
  }

  /** Filters by predicates that agree give the same result. */
  lemma {:induction false} FilterSame<T>(s: seq<T>, p: T -> bool, q: T -> bool)
    requires forall x :: p(x) == q(x)
    ensures Filter(s, p) == Filter(s, q)
  {
    if s != [] {
      FilterSame(s[1..], p, q);
    }
  }

  lemma {:induction false} FilterAll<T>(s: seq<T>, p: T -> bool)
    requires forall i :: 0 <= i < |s| ==> p(s[i])
    ensures Filter(s, p) == s
  {
    if s != [] {
      FilterAll(s[1..], p);
      assert [s[0]] + s[1..] == s;
    }
  }

  /** Filtering twice is filtering by the conjunction. */
  lemma {:induction false} FilterFilter<T>(s: seq<T>, p: T -> bool, q: T -> bool, pq: T -> bool)
    requires forall x :: pq(x) == (p(x) && q(x))
    ensures Filter(Filter(s, p), q) == Filter(s, pq)
  {
    if s != [] {
      FilterFilter(s[1..], p, q, pq);
      FilterAppend(if p(s[0]) then [s[0]] else [], Filter(s[1..], p), q);
    }
  }

  /** How many elements of `s` satisfy `p`. */
  function Count<T>(s: seq<T>, p: T -> bool): (n: nat)
    ensures n <= |s|
  {
    if s == [] then 0 else (if p(s[0]) then 1 else 0) + Count(s[1..], p)
  }

  lemma {:induction false} FilterLength<T>(s: seq<T>, p: T -> bool)
    ensures |Filter(s, p)| == Count(s, p)
  {
    if s != [] {
      FilterLength(s[1..], p);
    }
  }

  /** `s.reduce((acc, x) => acc + f(x), 0)`: a left fold, last element added last. */
  function Sum<T>(s: seq<T>, f: T -> real): real
  {
    if s == [] then 0.0 else Sum(s[..|s| - 1], f) + f(s[|s| - 1])
  }

  lemma {:induction false} SumAppend<T>(a: seq<T>, b: seq<T>, f: T -> real)
    ensures Sum(a + b, f) == Sum(a, f) + Sum(b, f)
    decreases |b|
  {
    if b == [] {
      assert a + b == a;
    } else {
      assert (a + b)[..|a + b| - 1] == a + b[..|b| - 1];
      SumAppend(a, b[..|b| - 1], f);
    }
  }

  lemma SumCons<T>(x: T, s: seq<T>, f: T -> real)
    ensures Sum([x] + s, f) == f(x) + Sum(s, f)
  {
    SumAppend([x], s, f);
    assert [x][..0] == [];
  }
  /** Summing over the elements that meet either of two exclusive
      conditions is summing over each condition separately. */
  lemma {:induction false} SumFilterSplit<T>(s: seq<T>, f: T -> real, either: T -> bool, p: T -> bool, q: T -> bool)
    requires forall x :: either(x) == (p(x) || q(x))
    requires forall x :: !(p(x) && q(x))
    ensures Sum(Filter(s, either), f) == Sum(Filter(s, p), f) + Sum(Filter(s, q), f)
  {
    if s != [] {
      SumFilterSplit(s[1..], f, either, p, q);
      var x := s[0];
      SumAppend(if either(x) then [x] else [], Filter(s[1..], either), f);
      SumAppend(if p(x) then [x] else [], Filter(s[1..], p), f);
      SumAppend(if q(x) then [x] else [], Filter(s[1..], q), f);
      assert Sum([x], f) == f(x) by {
        assert [x][..0] == [];
      }
    }
  }

  /** `Array.prototype.reverse`, as a value. */
  function Reverse<T>(s: seq<T>): (r: seq<T>)
    ensures |r| == |s|
    ensures forall i :: 0 <= i < |s| ==> r[i] == s[|s| - 1 - i]
  {
    if s == [] then [] else Reverse(s[1..]) + [s[0]]
  }


  // ---------------------------------------------------------------------
  // Strings

  /** The characters JavaScript counts as white space and line terminators:
      what `String.prototype.trim` removes and what `\s` matches. */
  predicate IsSpace(c: char)
  {
    c == ' ' || c == '\t' || c == '\n' || c == '\r' || c == '\U{000B}' || c == '\U{000C}'
    || c == '\U{00A0}' || c == '\U{1680}' || ('\U{2000}' <= c <= '\U{200A}')
    || c == '\U{2028}' || c == '\U{2029}' || c == '\U{202F}' || c == '\U{205F}'
    || c == '\U{3000}' || c == '\U{FEFF}'
  }

  /** `\d` in a JavaScript regular expression: ASCII digits only. */
  predicate IsDigit(c: char)
  {
    '0' <= c <= '9'
  }

  /** `String.prototype.length`: the number of UTF-16 code units, so a
      character above U+FFFF counts twice. */
  function JsLength(s: string): (n: nat)
    ensures |s| <= n <= 2 * |s|
  {
    if s == [] then 0 else JsLength(s[..|s| - 1]) + (if s[|s| - 1] as int > 0xFFFF then 2 else 1)
  }

  /** Text without characters above U+FFFF has one code unit per character. */
  lemma {:induction false} JsLengthBasic(s: string)
    requires forall i :: 0 <= i < |s| ==> s[i] as int <= 0xFFFF
    ensures JsLength(s) == |s|
  {
    if s != [] {
      JsLengthBasic(s[..|s| - 1]);
    }
  }

  function TrimStart(s: string): (r: string)
    ensures r == [] || !IsSpace(r[0])
  {
    if s != [] && IsSpace(s[0]) then TrimStart(s[1..]) else s
  }

  function TrimEnd(s: string): (r: string)
    ensures r == [] || !IsSpace(r[|r| - 1])
    ensures |r| <= |s| && r == s[..|r|]
  {
    if s != [] && IsSpace(s[|s| - 1]) then TrimEnd(s[..|s| - 1]) else s
  }

  /** `String.prototype.trim`. */
  function Trim(s: string): (r: string)
    ensures r == [] || (!IsSpace(r[0]) && !IsSpace(r[|r| - 1]))
  {
    TrimEnd(TrimStart(s))
  }

  /** `trimStart` leaves a suffix of `s`, all that precedes it being white space. */
  lemma {:induction false} TrimStartSuffix(s: string)
    ensures |TrimStart(s)| <= |s| && TrimStart(s) == s[|s| - |TrimStart(s)|..]
    ensures forall k :: 0 <= k < |s| - |TrimStart(s)| ==> IsSpace(s[k])
  {
    if s != [] && IsSpace(s[0]) {
      TrimStartSuffix(s[1..]);
      assert forall k :: 1 <= k < |s| ==> s[k] == s[1..][k - 1];
    }
  }

  /** `trimEnd` leaves a prefix of `s`, all that follows it being white space. */
  lemma {:induction false} TrimEndPrefix(s: string)
    ensures forall k :: |TrimEnd(s)| <= k < |s| ==> IsSpace(s[k])
  {
    if s != [] && IsSpace(s[|s| - 1]) {
      TrimEndPrefix(s[..|s| - 1]);
      assert forall k :: 0 <= k < |s| - 1 ==> s[k] == s[..|s| - 1][k];
    }
  }

  /** `trim` leaves the piece of `s` between its leading and its trailing
      white space, and that piece neither starts nor ends with white space. */
  lemma TrimSlice(s: string)
    ensures exists i, j :: 0 <= i <= j <= |s| && Trim(s) == s[i..j]
              && (forall k :: 0 <= k < i ==> IsSpace(s[k]))
              && (forall k :: j <= k < |s| ==> IsSpace(s[k]))
  {
    var t := TrimStart(s);
    TrimStartSuffix(s);
    TrimEndPrefix(t);
    var i := |s| - |t|;
    var j := i + |Trim(s)|;
    assert Trim(s) == s[i..j];
    assert forall k :: j <= k < |s| ==> s[k] == t[k - i];
  }

  /** A string trims to nothing exactly when it is all white space. */
  lemma {:induction false} TrimEmptyIff(s: string)
    ensures Trim(s) == [] <==> forall i :: 0 <= i < |s| ==> IsSpace(s[i])
  {
    TrimStartAllSpace(s);
    var t := TrimStart(s);
    if t != [] {
      TrimEndKeepsFirst(t);
    }
  }

  lemma {:induction false} TrimStartAllSpace(s: string)
    ensures TrimStart(s) == [] <==> forall i :: 0 <= i < |s| ==> IsSpace(s[i])
  {
    if s != [] && IsSpace(s[0]) {
      TrimStartAllSpace(s[1..]);
      assert forall i :: 1 <= i < |s| ==> s[i] == s[1..][i - 1];
    }
  }

  lemma {:induction false} TrimEndKeepsFirst(t: string)
    requires t != [] && !IsSpace(t[0])
    ensures TrimEnd(t) != []
  {
    if IsSpace(t[|t| - 1]) {
      TrimEndKeepsFirst(t[..|t| - 1]);
    }
  }

  /** `s.split(c)`: the pieces between occurrences of `c`; never empty. */
  function Split(s: string, c: char): (r: seq<string>)
    ensures |r| >= 1
    ensures forall i :: 0 <= i < |r| ==> c !in r[i]
  {
    if s == [] then [[]]
    else if s[0] == c then [[]] + Split(s[1..], c)
    else var rest := Split(s[1..], c); [[s[0]] + rest[0]] + rest[1..]
  }

  /** `parts.join(sep)`. */
  function Join(parts: seq<string>, sep: string): string
  {
    if parts == [] then []
    else if |parts| == 1 then parts[0]
    else parts[0] + sep + Join(parts[1..], sep)
  }

  /** Splitting and joining with the same separator gives the string back. */
  lemma {:induction false} JoinSplit(s: string, c: char)
    ensures Join(Split(s, c), [c]) == s
  {
    if s != [] {
      JoinSplit(s[1..], c);
      var rest := Split(s[1..], c);
      if s[0] != c {
        var r := [[s[0]] + rest[0]] + rest[1..];
        if |rest| == 1 {
          assert Join(r, [c]) == [s[0]] + rest[0];
        } else {
          assert r[1..] == rest[1..];
          assert Join(rest, [c]) == rest[0] + [c] + Join(rest[1..], [c]);
        }
      }
    }
  }

  /** A string without the separator is a single piece. */
  lemma {:induction false} SplitWithout(a: string, c: char)
    requires c !in a
    ensures Split(a, c) == [a]
  {
    if a != [] {
      SplitWithout(a[1..], c);
      assert [a[0]] + a[1..] == a;
    }
  }

  /** The first piece is the text before the first separator: a prefix of
      the string, followed by the separator unless it is the whole string. */
  lemma {:induction false} SplitFirstPiece(s: string, c: char)
    ensures Split(s, c)[0] <= s
    ensures |Split(s, c)[0]| < |s| ==> s[|Split(s, c)[0]|] == c
  {
    if s != [] && s[0] != c {
      SplitFirstPiece(s[1..], c);
      assert s == [s[0]] + s[1..];
    }
  }

  /** Splitting at the first separator. */
  lemma {:induction false} SplitAtFirst(a: string, b: string, c: char)
    requires c !in a
    ensures Split(a + [c] + b, c) == [a] + Split(b, c)
  {
    if a == [] {
      assert a + [c] + b == [c] + b;
      assert ([c] + b)[1..] == b;
    } else {
      assert (a + [c] + b)[1..] == a[1..] + [c] + b;
      SplitAtFirst(a[1..], b, c);
      assert [a[0]] + a[1..] == a;
    }
  }

  /** Every character of every piece comes from the string. */
  lemma {:induction false} SplitChars(s: string, c: char, p: char -> bool)
    requires forall i :: 0 <= i < |s| ==> p(s[i])
    ensures forall k, j :: 0 <= k < |Split(s, c)| && 0 <= j < |Split(s, c)[k]| ==> p(Split(s, c)[k][j])
  {
    if s != [] {
      SplitChars(s[1..], c, p);
    }
  }

  /** Joining pieces whose characters, and the separator's, satisfy `p`
      gives a string whose characters satisfy `p`. */
  lemma {:induction false} JoinChars(parts: seq<string>, sep: string, p: char -> bool)
    requires forall k, j :: 0 <= k < |parts| && 0 <= j < |parts[k]| ==> p(parts[k][j])
    requires forall j :: 0 <= j < |sep| ==> p(sep[j])
    ensures forall j :: 0 <= j < |Join(parts, sep)| ==> p(Join(parts, sep)[j])
  {
    if |parts| > 1 {
      JoinChars(parts[1..], sep, p);
      var rest := Join(parts[1..], sep);
      forall j | 0 <= j < |parts[0] + sep + rest| ensures p((parts[0] + sep + rest)[j]) {
        if j < |parts[0]| {
          assert (parts[0] + sep + rest)[j] == parts[0][j];
        } else if j < |parts[0]| + |sep| {
          assert (parts[0] + sep + rest)[j] == sep[j - |parts[0]|];
        } else {
          assert (parts[0] + sep + rest)[j] == rest[j - |parts[0]| - |sep|];
        }
      }
    }
  }

  /** How many times `c` occurs in `s`. */
  function Occurrences(s: string, c: char): nat
  {
    if s == [] then 0 else (if s[0] == c then 1 else 0) + Occurrences(s[1..], c)
  }

  /** The number of pieces is one more than the number of separators. */
  lemma {:induction false} SplitLength(s: string, c: char)
    ensures |Split(s, c)| == Occurrences(s, c) + 1
  {
    if s != [] {
      SplitLength(s[1..], c);
    }
  }

  lemma {:induction false} OccurrencesAppend(a: string, b: string, c: char)
    ensures Occurrences(a + b, c) == Occurrences(a, c) + Occurrences(b, c)
  {
    if a == [] {
      assert a + b == b;
    } else {
      assert (a + b)[1..] == a[1..] + b;
      OccurrencesAppend(a[1..], b, c);
    }
  }

  lemma {:induction false} OccurrencesNone(s: string, c: char)
    ensures Occurrences(s, c) == 0 <==> c !in s
  {
    if s != [] {
      OccurrencesNone(s[1..], c);
      assert s == [s[0]] + s[1..];
    }
  }

  /** Replaces the first occurrence of `pat` (`String.prototype.replace`
      with a string pattern). */
  function ReplaceFirst(s: string, pat: string, rep: string): string
    requires pat != []
  {
    if |s| < |pat| then s
    else if s[..|pat|] == pat then rep + s[|pat|..]
    else [s[0]] + ReplaceFirst(s[1..], pat, rep)
  }

  lemma ReplaceFirstAtStart(pat: string, rest: string, rep: string)
    requires pat != []
    ensures ReplaceFirst(pat + rest, pat, rep) == rep + rest
  {
    assert (pat + rest)[..|pat|] == pat;
    assert (pat + rest)[|pat|..] == rest;
  }

  predicate NonSpace(s: string)
  {
    forall i :: 0 <= i < |s| ==> !IsSpace(s[i])
  }

  /** The stretch `s[a..e]` reads as a match of `\S+@\S+\.\S+` with the
      '@' at `at` and the '.' at `dot`. */
  predicate EmailMatchAt(s: string, a: int, at: int, dot: int, e: int)
    requires 0 <= a < at < dot < e <= |s|
  {
    NonSpace(s[a..at]) && s[at] == '@' && NonSpace(s[at + 1..dot])
    && s[dot] == '.' && NonSpace(s[dot + 1..e])
  }

  /** `/\S+@\S+\.\S+/.test(s)`: the pattern is not anchored, so it holds
      when some stretch of `s` matches it. */
  predicate MatchesEmailPattern(s: string)
  {
    exists a, at, dot, e :: 0 <= a < at && at + 1 < dot && dot + 1 < e <= |s| && EmailMatchAt(s, a, at, dot, e)
  }

  /** The shortest match around an '@' at `at` and a '.' at `dot`: one
      non-space character before the '@', non-space characters up to the
      '.', and one non-space character after it. */
  predicate EmailAnchors(s: string, at: int, dot: int)
    requires 1 <= at && at + 1 < dot && dot + 1 < |s|
  {
    !IsSpace(s[at - 1]) && s[at] == '@' && NonSpace(s[at + 1..dot])
    && s[dot] == '.' && !IsSpace(s[dot + 1])
  }

  /** The pattern matches exactly when such a shortest match exists. */
  lemma EmailPatternAnchors(s: string)
    ensures MatchesEmailPattern(s) <==>
            exists at, dot :: 1 <= at && at + 1 < dot && dot + 1 < |s| && EmailAnchors(s, at, dot)
  {
    if MatchesEmailPattern(s) {
      var a, at, dot, e :| 0 <= a < at && at + 1 < dot && dot + 1 < e <= |s| && EmailMatchAt(s, a, at, dot, e);
      assert s[at - 1] == s[a..at][at - 1 - a];
      assert s[dot + 1] == s[dot + 1..e][0];
      assert EmailAnchors(s, at, dot);
    }
    if exists at, dot :: 1 <= at && at + 1 < dot && dot + 1 < |s| && EmailAnchors(s, at, dot) {
      var at, dot :| 1 <= at && at + 1 < dot && dot + 1 < |s| && EmailAnchors(s, at, dot);
      assert s[at - 1..at] == [s[at - 1]];
      assert s[dot + 1..dot + 2] == [s[dot + 1]];
      assert EmailMatchAt(s, at - 1, at, dot, dot + 2);
    }
  }

  /** A match needs an '@', a '.' and at least five characters. */
  lemma EmailPatternShape(s: string)
    requires MatchesEmailPattern(s)
    ensures '@' in s && '.' in s && |s| >= 5
  {
    var a, at, dot, e :| 0 <= a < at && at + 1 < dot && dot + 1 < e <= |s| && EmailMatchAt(s, a, at, dot, e);
  }

  /** Non-empty runs of non-space characters around an '@' and a '.' match. */
  lemma EmailPatternBuild(x: string, y: string, z: string)
    requires x != [] && y != [] && z != []
    requires NonSpace(x) && NonSpace(y) && NonSpace(z)
    ensures MatchesEmailPattern(x + "@" + y + "." + z)
  {
    var s := x + "@" + y + "." + z;
    var at, dot := |x|, |x| + 1 + |y|;
    assert s[..at] == x;
    assert s[at + 1..dot] == y;
    assert s[dot + 1..] == z;
    assert s[0..at] == x;
    assert s[dot + 1..|s|] == z;
    assert EmailMatchAt(s, 0, at, dot, |s|);
  }

  // ---------------------------------------------------------------------
  // Ordering of real quotients

  /** Multiplying by a positive number keeps the order. */
  lemma ScaleKeepsOrder(a: real, b: real, t: real)
    requires t > 0.0
    ensures a < b <==> a * t < b * t
    ensures a <= b <==> a * t <= b * t
  {
    if a < b {
      assert (b - a) * t > 0.0;
    }
    if a * t < b * t {
      assert (b - a) * t > 0.0;
    }
  }

  /** Comparing a quotient by a positive number is comparing the dividend
      with the scaled bound. */
  lemma DivCompare(a: real, t: real, c: real)
    requires t > 0.0
    ensures c < a / t <==> c * t < a
    ensures a / t <= c <==> a <= c * t
    ensures c <= a / t <==> c * t <= a
    ensures a / t < c <==> a < c * t
  {
    var q := a / t;
    assert q * t == a;
    ScaleKeepsOrder(c, q, t);
    ScaleKeepsOrder(q, c, t);
  }
}
