// Python built-ins that the QualiaIA sources lean on, stated over Dafny values:
// Option/Result for None and raised exceptions, ASCII string methods, Python's
// forgiving slice bounds, insertion-ordered dicts and the stable
// newest-first `sorted(..., reverse=True)` used by every history getter.
module Py {

  datatype Option<T> = None | Some(value: T) {
    predicate IsSome() { Some? }
  }

  /** A call that either returns a value or raises an exception carrying a message. */
  datatype Result<T> = Ok(value: T) | Err(error: string)

  function Min(a: int, b: int): int { if a <= b then a else b }
  function Max(a: int, b: int): int { if a >= b then a else b }

  // ---------------------------------------------------------------------------
  // Characters (ASCII; Unicode case mapping and Unicode whitespace are not modelled)

  predicate IsAsciiUpper(c: char) { 'A' <= c <= 'Z' }
  predicate IsAsciiLower(c: char) { 'a' <= c <= 'z' }
  predicate IsAsciiLetter(c: char) { IsAsciiUpper(c) || IsAsciiLower(c) }
  predicate IsDigit(c: char) { '0' <= c <= '9' }

  /** The characters `str.strip()` removes that lie in the ASCII range. */
  predicate IsSpace(c: char) {
    c == ' ' || c == '\t' || c == '\n' || c == '\r' || c == '\U{0b}' || c == '\U{0c}'
    || ('\U{1c}' <= c <= '\U{1f}')
  }

  function LowerChar(c: char): char {
    if IsAsciiUpper(c) then (c as int + 32) as char else c
  }

  function UpperChar(c: char): char {
    if IsAsciiLower(c) then (c as int - 32) as char else c
  }

  /** `str.lower()` */
  function Lower(s: string): (r: string)
    ensures |r| == |s|
    ensures forall i :: 0 <= i < |s| ==> r[i] == LowerChar(s[i])
  {
    if s == [] then [] else [LowerChar(s[0])] + Lower(s[1..])
  }

  /** `str.upper()` */
  function Upper(s: string): (r: string)
    ensures |r| == |s|
    ensures forall i :: 0 <= i < |s| ==> r[i] == UpperChar(s[i])
  {
    if s == [] then [] else [UpperChar(s[0])] + Upper(s[1..])
  }

  predicate IsLowered(s: string) {
    forall i :: 0 <= i < |s| ==> !IsAsciiUpper(s[i])
  }

  lemma LowerIsLowered(s: string)
    ensures IsLowered(Lower(s))
    ensures IsLowered(s) ==> Lower(s) == s
  {
  }

  /** `str.replace(a, b)` for single characters. */
  function ReplaceChar(s: string, a: char, b: char): (r: string)
    ensures |r| == |s|
    ensures forall i :: 0 <= i < |s| ==> r[i] == (if s[i] == a then b else s[i])
  {
    if s == [] then [] else [if s[0] == a then b else s[0]] + ReplaceChar(s[1..], a, b)
  }

  /** `str.replace(pat, rep)`: left to right, non-overlapping occurrences. */
  function Replace(s: string, pat: string, rep: string): string
    requires |pat| > 0
    decreases |s|
  {
    if |s| < |pat| then s
    else if s[..|pat|] == pat then rep + Replace(s[|pat|..], pat, rep)
    else [s[0]] + Replace(s[1..], pat, rep)
  }

  /**
   * `str.title()`: a letter is upper-cased when the character before it is not a
   * letter and lower-cased otherwise; every other character is kept.
   */
  function TitleFrom(s: string, afterLetter: bool): (r: string)
    ensures |r| == |s|
    ensures forall i :: 0 <= i < |s| ==> (IsAsciiLetter(r[i]) <==> IsAsciiLetter(s[i]))
    ensures forall i :: 0 <= i < |s| && !IsAsciiLetter(s[i]) ==> r[i] == s[i]
    ensures forall i :: 0 <= i < |s| && IsAsciiLetter(s[i]) ==>
      r[i] == (if (if i == 0 then afterLetter else IsAsciiLetter(s[i - 1])) then LowerChar(s[i]) else UpperChar(s[i]))
  {
    if s == [] then []
    else
      var c := s[0];
      var t := if !IsAsciiLetter(c) then c else if afterLetter then LowerChar(c) else UpperChar(c);
      var rest := TitleFrom(s[1..], IsAsciiLetter(c));
      assert forall i :: 1 <= i < |s| ==> s[1..][i - 1] == s[i];
      [t] + rest
  }

  function Title(s: string): string { TitleFrom(s, false) }

  /** `s.replace('_', ' ').title()`: how event types and context keys are shown to people. */
  function SpacedTitle(s: string): (r: string)
    ensures |r| == |s|
    ensures forall i :: 0 <= i < |s| ==> (IsAsciiLetter(r[i]) <==> IsAsciiLetter(s[i]))
    ensures forall i :: 0 <= i < |s| && !IsAsciiLetter(s[i]) ==> r[i] == (if s[i] == '_' then ' ' else s[i])
    ensures forall i :: 0 <= i < |s| && IsAsciiLetter(s[i]) ==>
      r[i] == (if i > 0 && IsAsciiLetter(s[i - 1]) then LowerChar(s[i]) else UpperChar(s[i]))
  {
    Title(ReplaceChar(s, '_', ' '))
  }

  // ---------------------------------------------------------------------------
  // strip / split / join / prefixes

  function StripLeft(s: string): (r: string)
    ensures |r| <= |s| && r == s[|s| - |r|..]
    ensures r == [] || !IsSpace(r[0])
  {
    if s != [] && IsSpace(s[0]) then StripLeft(s[1..]) else s
  }

  function StripRight(s: string): (r: string)
    ensures |r| <= |s| && r == s[..|r|]
    ensures r == [] || !IsSpace(r[|r| - 1])
  {
    if s != [] && IsSpace(s[|s| - 1]) then StripRight(s[..|s| - 1]) else s
  }

  /** `str.strip()` */
  function Strip(s: string): (r: string)
    ensures |r| <= |s|
    ensures r == [] || (!IsSpace(r[0]) && !IsSpace(r[|r| - 1]))
  {
    StripRight(StripLeft(s))
  }

  lemma {:induction false} StripLeftNoSpace(s: string)
    requires s == [] || !IsSpace(s[0])
    ensures StripLeft(s) == s
  {
  }

  /** `s.split(sep)` for a one-character separator; `"".split(",") == [""]`. */
  function Split(s: string, sep: char): (r: seq<string>)
    ensures |r| >= 1
    decreases |s|
  {
    if s == [] then [[]]
    else
      var rest := Split(s[1..], sep);
      if s[0] == sep then [[]] + rest else [[s[0]] + rest[0]] + rest[1..]
  }

  /** `sep.join(parts)` */
  function Join(parts: seq<string>, sep: char): string
  {
    if parts == [] then []
    else if |parts| == 1 then parts[0]
    else parts[0] + [sep] + Join(parts[1..], sep)
  }

  lemma {:induction false} SplitPiecesHaveNoSeparator(s: string, sep: char)
    ensures forall k, j :: 0 <= k < |Split(s, sep)| && 0 <= j < |Split(s, sep)[k]| ==> Split(s, sep)[k][j] != sep
  {
    if s != [] {
      SplitPiecesHaveNoSeparator(s[1..], sep);
    }
  }

  /** Splitting on a separator and joining the pieces back gives the original text. */
  lemma {:induction false} JoinSplit(s: string, sep: char)
    ensures Join(Split(s, sep), sep) == s
  {
    if s != [] {
      var rest := Split(s[1..], sep);
      JoinSplit(s[1..], sep);
      if s[0] == sep {
        assert Split(s, sep) == [[]] + rest;
        assert Join([[]] + rest, sep) == [] + [sep] + Join(rest, sep);
      } else {
        var r := Split(s, sep);
        assert r == [[s[0]] + rest[0]] + rest[1..];
        if |rest| == 1 {
          assert Join(r, sep) == [s[0]] + rest[0];
        } else {
          assert r[1..] == rest[1..];
          assert Join(r, sep) == [s[0]] + rest[0] + [sep] + Join(rest[1..], sep);
          assert Join(rest, sep) == rest[0] + [sep] + Join(rest[1..], sep);
        }
      }
    }
  }

  lemma {:induction false} SplitWithoutSeparator(a: string, sep: char)
    requires sep !in a
    ensures Split(a, sep) == [a]
  {
    if a != [] {
      assert a[0] in a;
      SplitWithoutSeparator(a[1..], sep);
      assert a == [a[0]] + a[1..];
    }
  }

  lemma {:induction false} SplitAtSeparator(a: string, sep: char, rest: string)
    requires sep !in a
    ensures Split(a + [sep] + rest, sep) == [a] + Split(rest, sep)
  {
    if a != [] {
      assert a[0] in a;
      SplitAtSeparator(a[1..], sep, rest);
      var s := a + [sep] + rest;
      assert s[1..] == a[1..] + [sep] + rest;
      assert s[0] == a[0];
      var tail := Split(s[1..], sep);
      assert tail == [a[1..]] + Split(rest, sep);
      assert Split(s, sep) == [[a[0]] + tail[0]] + tail[1..];
      assert [a[0]] + a[1..] == a;
    } else {
      assert a + [sep] + rest == [sep] + rest;
    }
  }

  /** Joining pieces that do not contain the separator and splitting again gives the pieces. */
  lemma {:induction false} SplitJoin(parts: seq<string>, sep: char)
    requires |parts| >= 1
    requires forall i :: 0 <= i < |parts| ==> sep !in parts[i]
    ensures Split(Join(parts, sep), sep) == parts
  {
    if |parts| == 1 {
      SplitWithoutSeparator(parts[0], sep);
    } else {
      SplitJoin(parts[1..], sep);
      SplitAtSeparator(parts[0], sep, Join(parts[1..], sep));
    }
  }

  predicate StartsWith(s: string, prefix: string) {
    |prefix| <= |s| && s[..|prefix|] == prefix
  }

  /** `sub in s` */
  predicate Contains(s: string, sub: string)
    decreases |s|
  {
    StartsWith(s, sub) || (s != [] && Contains(s[1..], sub))
  }

  // ---------------------------------------------------------------------------
  // Python slice bounds: s[start:] and s[:stop] with negative and out-of-range indices

  /** Where a Python slice bound `i` lands in a sequence of length `n`. */
  function SliceIndex(i: int, n: nat): (r: nat)
    ensures r <= n
  {
    if i < 0 then Max(0, n + i) else Min(i, n)
  }

  /** `s[start:]` */
  function From<T>(s: seq<T>, start: int): seq<T> { s[SliceIndex(start, |s|)..] }

  /** `s[:stop]` */
  function UpTo<T>(s: seq<T>, stop: int): seq<T> { s[..SliceIndex(stop, |s|)] }

  /** `s[-n:]` for a positive count: the last `n` elements, or all of them if fewer. */
  lemma LastN<T>(s: seq<T>, n: int)
    requires n > 0
    ensures |From(s, -n)| == Min(n, |s|)
    ensures From(s, -n) == s[|s| - Min(n, |s|)..]
  {
  }

  /** `s[:n]` for a count: the first `n` elements, or all of them if fewer. */
  lemma FirstN<T>(s: seq<T>, n: nat)
    ensures UpTo(s, n) == s[..Min(n, |s|)]
  {
  }

  /** The bounded history idiom: append, then keep `s[-cap:]`. */
  function AppendCapped<T>(s: seq<T>, x: T, cap: nat): (r: seq<T>)
    requires cap > 0
    ensures |r| == Min(|s| + 1, cap)
    ensures r != [] && r[|r| - 1] == x
    ensures r == (s + [x])[|s| + 1 - |r|..]
  {
    From(s + [x], -(cap as int))
  }

  // ---------------------------------------------------------------------------
  // Insertion-ordered dictionaries: a sequence of (key, value) pairs with distinct keys

  predicate UniqueKeys<K(==), V>(d: seq<(K, V)>) {
    forall i, j :: 0 <= i < j < |d| ==> d[i].0 != d[j].0
  }

  function Keys<K(==), V>(d: seq<(K, V)>): (r: seq<K>)
    ensures |r| == |d| && forall i :: 0 <= i < |d| ==> r[i] == d[i].0
  {
    if d == [] then [] else [d[0].0] + Keys(d[1..])
  }

  /** `d.get(k)` */
  function Get<K(==), V>(d: seq<(K, V)>, k: K): (r: Option<V>)
    ensures r.None? <==> forall i :: 0 <= i < |d| ==> d[i].0 != k
    ensures r.Some? ==> exists i :: 0 <= i < |d| && d[i] == (k, r.value)
  {
    if d == [] then None else if d[0].0 == k then Some(d[0].1) else Get(d[1..], k)
  }

  /** The value of a key is the one at its first position. */
  lemma {:induction false} GetAtFirst<K, V>(d: seq<(K, V)>, i: nat)
    requires i < |d| && forall j :: 0 <= j < i ==> d[j].0 != d[i].0
    ensures Get(d, d[i].0) == Some(d[i].1)
  {
    if i > 0 {
      assert d[1..][i - 1] == d[i];
      GetAtFirst(d[1..], i - 1);
    }
  }

  /** `d.get(k, default)` */
  function GetOr<K(==), V>(d: seq<(K, V)>, k: K, default: V): V {
    match Get(d, k)
    case Some(v) => v
    case None => default
  }

  /** `d[k] = v`: an existing key keeps its position, a new key goes last. */
  function Put<K(==), V>(d: seq<(K, V)>, k: K, v: V): (r: seq<(K, V)>)
  {
    if d == [] then [(k, v)]
    else if d[0].0 == k then [(k, v)] + d[1..]
    else [d[0]] + Put(d[1..], k, v)
  }

  lemma {:induction false} PutGet<K, V>(d: seq<(K, V)>, k: K, v: V, other: K)
    ensures Get(Put(d, k, v), k) == Some(v)
    ensures other != k ==> Get(Put(d, k, v), other) == Get(d, other)
  {
    if d != [] && d[0].0 != k {
      PutGet(d[1..], k, v, other);
    }
  }

  /** Assigning an existing key keeps every key in its place; a new key is appended. */
  lemma {:induction false} PutShape<K, V>(d: seq<(K, V)>, k: K, v: V)
    ensures Get(d, k).Some? ==> |Put(d, k, v)| == |d| && forall i :: 0 <= i < |d| ==> Put(d, k, v)[i].0 == d[i].0
    ensures Get(d, k).None? ==> Put(d, k, v) == d + [(k, v)]
  {
    if d != [] && d[0].0 != k {
      PutShape(d[1..], k, v);
      if Get(d, k).Some? {
        var r := Put(d, k, v);
        assert r == [d[0]] + Put(d[1..], k, v);
        forall i | 0 < i < |d| ensures r[i].0 == d[i].0 {
          assert r[i] == Put(d[1..], k, v)[i - 1];
        }
      }
    }
  }

  lemma PutKeepsUniqueKeys<K, V>(d: seq<(K, V)>, k: K, v: V)
    requires UniqueKeys(d)
    ensures UniqueKeys(Put(d, k, v))
  {
    PutShape(d, k, v);
  }

  // ---------------------------------------------------------------------------
  // Newest-first ordering: `sorted(xs, key=stamp, reverse=True)` is a stable sort

  function Reverse<T>(s: seq<T>): (r: seq<T>)
    ensures |r| == |s|
    ensures forall i :: 0 <= i < |s| ==> r[i] == s[|s| - 1 - i]
  {
    if s == [] then [] else Reverse(s[1..]) + [s[0]]
  }

  predicate NewestFirst<T>(s: seq<T>, stamp: T -> int) {
    forall i, j :: 0 <= i < j < |s| ==> stamp(s[i]) >= stamp(s[j])
  }

  predicate StrictlyAscending<T>(s: seq<T>, stamp: T -> int) {
    forall i, j :: 0 <= i < j < |s| ==> stamp(s[i]) < stamp(s[j])
  }

  /** Places `x` after every element at least as new, before the first older one. */
  function InsertNewestFirst<T>(x: T, t: seq<T>, stamp: T -> int): (r: seq<T>)
    ensures |r| == |t| + 1
  {
    if t == [] then [x]
    else if stamp(t[0]) < stamp(x) then [x] + t
    else [t[0]] + InsertNewestFirst(x, t[1..], stamp)
  }

  lemma {:induction false} InsertPermutes<T>(x: T, t: seq<T>, stamp: T -> int)
    ensures multiset(InsertNewestFirst(x, t, stamp)) == multiset(t) + multiset{x}
  {
    if t != [] && stamp(t[0]) >= stamp(x) {
      InsertPermutes(x, t[1..], stamp);
      assert t == [t[0]] + t[1..];
    }
  }

  lemma {:induction false} InsertMembers<T>(x: T, t: seq<T>, stamp: T -> int, i: nat)
    requires i < |InsertNewestFirst(x, t, stamp)|
    ensures InsertNewestFirst(x, t, stamp)[i] == x || InsertNewestFirst(x, t, stamp)[i] in t
  {
    if t != [] && stamp(t[0]) >= stamp(x) && i > 0 {
      InsertMembers(x, t[1..], stamp, i - 1);
    }
  }

  lemma {:induction false} InsertKeepsOrder<T>(x: T, t: seq<T>, stamp: T -> int)
    requires NewestFirst(t, stamp)
    ensures NewestFirst(InsertNewestFirst(x, t, stamp), stamp)
  {
    if t != [] && stamp(t[0]) >= stamp(x) {
      var rest := InsertNewestFirst(x, t[1..], stamp);
      InsertKeepsOrder(x, t[1..], stamp);
      var r := InsertNewestFirst(x, t, stamp);
      assert r == [t[0]] + rest;
      forall j | 0 <= j < |rest| ensures stamp(t[0]) >= stamp(rest[j]) {
        InsertMembers(x, t[1..], stamp, j);
        if rest[j] != x {
          var m :| 0 <= m < |t| - 1 && t[1..][m] == rest[j];
          assert t[m + 1] == rest[j];
        }
      }
      forall i, j | 0 <= i < j < |r| ensures stamp(r[i]) >= stamp(r[j]) {
        assert r[j] == rest[j - 1];
        if i > 0 {
          assert r[i] == rest[i - 1];
        }
      }
    }
  }

  /** The stable newest-first sort of a history list. */
  function SortNewestFirst<T>(s: seq<T>, stamp: T -> int): (r: seq<T>)
    ensures |r| == |s|
  {
    if s == [] then [] else InsertNewestFirst(s[|s| - 1], SortNewestFirst(s[..|s| - 1], stamp), stamp)
  }

  /** The sort returns a permutation of the history, newest first. */
  lemma {:induction false} SortNewestFirstCorrect<T>(s: seq<T>, stamp: T -> int)
    ensures multiset(SortNewestFirst(s, stamp)) == multiset(s)
    ensures NewestFirst(SortNewestFirst(s, stamp), stamp)
  {
    if s != [] {
      var init, last := s[..|s| - 1], s[|s| - 1];
      SortNewestFirstCorrect(init, stamp);
      InsertKeepsOrder(last, SortNewestFirst(init, stamp), stamp);
      InsertPermutes(last, SortNewestFirst(init, stamp), stamp);
      assert s == init + [last];
    }
  }

  lemma PrefixNewestFirst<T>(s: seq<T>, stamp: T -> int, n: nat)
    requires n <= |s| && NewestFirst(s, stamp)
    ensures NewestFirst(s[..n], stamp)
  {
    forall i, j | 0 <= i < j < n
      ensures stamp(s[..n][i]) >= stamp(s[..n][j])
    {
      assert s[..n][i] == s[i] && s[..n][j] == s[j];
    }
  }

  lemma PrefixMultiset<T>(s: seq<T>, n: nat)
    requires n <= |s|
    ensures multiset(s[..n]) <= multiset(s)
  {
    assert s == s[..n] + s[n..];
    assert multiset(s) == multiset(s[..n]) + multiset(s[n..]);
  }

  /** `sorted(s, newest first)[:limit]`: at most `limit` of the elements, newest first. */
  lemma NewestFirstTop<T>(s: seq<T>, stamp: T -> int, limit: int)
    ensures var r := UpTo(SortNewestFirst(s, stamp), limit);
      (limit >= 0 ==> |r| == Min(limit, |s|)) && NewestFirst(r, stamp) && multiset(r) <= multiset(s)
    ensures var r := UpTo(SortNewestFirst(s, stamp), limit);
      forall x, y :: x in s && x !in r && y in r ==> stamp(x) <= stamp(y)
  {
    var sorted := SortNewestFirst(s, stamp);
    SortNewestFirstCorrect(s, stamp);
    var k := SliceIndex(limit, |sorted|);
    PrefixNewestFirst(sorted, stamp, k);
    PrefixMultiset(sorted, k);
    var r := sorted[..k];
    forall x, y | x in s && x !in r && y in r ensures stamp(x) <= stamp(y) {
      assert x in multiset(s);
      assert x in sorted;
      var j :| 0 <= j < |sorted| && sorted[j] == x;
      var i :| 0 <= i < |r| && r[i] == y;
      assert j >= k;
      assert sorted[i] == y;
    }
  }

  lemma ReverseSnoc<T>(init: seq<T>, last: T)
    ensures Reverse(init + [last]) == [last] + Reverse(init)
  {
    var r, q := Reverse(init + [last]), [last] + Reverse(init);
    forall i | 0 <= i < |r| ensures r[i] == q[i] {
      if i > 0 {
        assert q[i] == Reverse(init)[i - 1];
      }
    }
  }

  lemma {:induction false} SortOfAscendingIsReverse<T>(s: seq<T>, stamp: T -> int)
    requires StrictlyAscending(s, stamp)
    ensures SortNewestFirst(s, stamp) == Reverse(s)
  {
    if s != [] {
      var init, last := s[..|s| - 1], s[|s| - 1];
      assert StrictlyAscending(init, stamp);
      SortOfAscendingIsReverse(init, stamp);
      var t := SortNewestFirst(init, stamp);
      assert SortNewestFirst(s, stamp) == InsertNewestFirst(last, t, stamp);
      if t != [] {
        assert t[0] == init[|init| - 1];
        assert stamp(t[0]) < stamp(last);
      }
      assert InsertNewestFirst(last, t, stamp) == [last] + t;
      assert s == init + [last];
      ReverseSnoc(init, last);
    }
  }
}
