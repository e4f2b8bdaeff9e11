/**
 * Shared vocabulary of the model: optional values and error returns, the
 * string helpers the Go standard library supplies to the command code
 * (ASCII case folding, substring search, join and split, whitespace
 * trimming), string truncation for table columns, and sorted sets of
 * integers (used for calendar-day lists).
 */
module Common {

  datatype Option<T> = None | Some(value: T)

  /** An operation that either succeeds with a value or fails with an error message. */
  datatype Result<T> = Ok(value: T) | Err(msg: string)

  /** The smaller argument. */
  function Min(a: int, b: int): (m: int)
    ensures m <= a && m <= b && (m == a || m == b)
  {
    if a < b then a else b
  }

  function Max(a: int, b: int): int { if a < b then b else a }

  // ---------------------------------------------------------------- division by constants

  /** Quotient and remainder are unique: the facts the calendar and duration arithmetic rest on. */
  lemma DivMod4(a: int, q: int, r: int)
    requires a == 4 * q + r && 0 <= r < 4
    ensures a / 4 == q && a % 4 == r
  {
  }

  lemma DivMod60(a: int, q: int, r: int)
    requires a == 60 * q + r && 0 <= r < 60
    ensures a / 60 == q && a % 60 == r
  {
  }

  lemma DivMod100(a: int, q: int, r: int)
    requires a == 100 * q + r && 0 <= r < 100
    ensures a / 100 == q && a % 100 == r
  {
  }

  lemma DivMod400(a: int, q: int, r: int)
    requires a == 400 * q + r && 0 <= r < 400
    ensures a / 400 == q && a % 400 == r
  {
  }

  lemma DivMod3600(a: int, q: int, r: int)
    requires a == 3600 * q + r && 0 <= r < 3600
    ensures a / 3600 == q && a % 3600 == r
  {
  }

  // ---------------------------------------------------------------- case folding

  predicate IsUpper(c: char) { 'A' <= c <= 'Z' }

  function LowerChar(c: char): char
  {
    if IsUpper(c) then (c as int + 32) as char else c
  }

  /** strings.ToLower restricted to ASCII letters. */
  function Lower(s: string): string
  {
    seq(|s|, i requires 0 <= i < |s| => LowerChar(s[i]))
  }

  lemma LowerIdempotent(s: string)
    ensures Lower(Lower(s)) == Lower(s)
  {
  }

  // ---------------------------------------------------------------- substrings

  /** `sub` occurs in `s` starting at index `i`. */
  predicate OccursAt(s: string, sub: string, i: int)
  {
    0 <= i && i + |sub| <= |s| && s[i..i + |sub|] == sub
  }

  /** strings.Contains: the empty string occurs everywhere. */
  predicate Contains(s: string, sub: string)
  {
    exists i :: 0 <= i <= |s| - |sub| && OccursAt(s, sub, i)
  }

  /** strings.Contains(strings.ToLower(s), strings.ToLower(sub)). */
  predicate ContainsFold(s: string, sub: string)
  {
    Contains(Lower(s), Lower(sub))
  }

  lemma ContainsEmpty(s: string)
    ensures Contains(s, "")
  {
    assert OccursAt(s, "", 0);
  }

  lemma ContainsSelf(s: string)
    ensures Contains(s, s)
  {
    assert OccursAt(s, s, 0);
  }

  /** A query longer than the text can never occur in it. */
  lemma ContainsLonger(s: string, sub: string)
    requires |sub| > |s|
    ensures !Contains(s, sub)
  {
  }

  // ---------------------------------------------------------------- whitespace

  predicate IsSpace(c: char) { c == ' ' || c == '\t' || c == '\n' || c == '\r' || c == '\U{0b}' || c == '\U{0c}' }

  function TrimLeft(s: string): (r: string)
    ensures |r| <= |s| && r == s[|s| - |r|..]
    ensures r == [] || !IsSpace(r[0])
    ensures forall i :: 0 <= i < |s| - |r| ==> IsSpace(s[i])
  {
    if s != [] && IsSpace(s[0]) then TrimLeft(s[1..]) else s
  }

  function TrimRight(s: string): (r: string)
    ensures |r| <= |s| && r == s[..|r|]
    ensures r == [] || !IsSpace(r[|r| - 1])
    ensures forall i :: |r| <= i < |s| ==> IsSpace(s[i])
  {
    if s != [] && IsSpace(s[|s| - 1]) then TrimRight(s[..|s| - 1]) else s
  }

  /** strings.TrimSpace restricted to ASCII whitespace. */
  function TrimSpace(s: string): string
  {
    TrimRight(TrimLeft(s))
  }

  /** Trailing whitespace is cut back to the last non-blank character. */
  lemma {:induction false} TrimRightSpaces(w: string, tail: string)
    requires w == [] || !IsSpace(w[|w| - 1])
    requires forall i :: 0 <= i < |tail| ==> IsSpace(tail[i])
    ensures TrimRight(w + tail) == w
    decreases |tail|
  {
    if tail == [] {
      assert w + tail == w;
    } else {
      var t := tail[..|tail| - 1];
      assert (w + tail)[..|w + tail| - 1] == w + t;
      TrimRightSpaces(w, t);
    }
  }

  /** A word followed by whitespace normalises to the word in lower case. */
  lemma TrimLowerWord(w: string, tail: string)
    requires w != [] && !IsSpace(w[0]) && !IsSpace(w[|w| - 1])
    requires forall i :: 0 <= i < |tail| ==> IsSpace(tail[i])
    ensures TrimSpace(Lower(w + tail)) == Lower(w)
  {
    var s := w + tail;
    assert Lower(s) == Lower(w) + tail by {
      assert forall i :: 0 <= i < |tail| ==> !IsUpper(tail[i]);
    }
    assert TrimLeft(Lower(s)) == Lower(s);
    TrimRightSpaces(Lower(w), tail);
  }

  // ---------------------------------------------------------------- join and split

  /** strings.Join. */
  function Join(xs: seq<string>, sep: string): string
  {
    if |xs| == 0 then "" else if |xs| == 1 then xs[0] else xs[0] + sep + Join(xs[1..], sep)
  }

  function IndexOf(s: string, c: char): (i: nat)
    requires c in s
    ensures i < |s| && s[i] == c && c !in s[..i]
  {
    if s[0] == c then 0 else 1 + IndexOf(s[1..], c)
  }

  /** strings.Split with a one-character separator; an empty input gives one empty field. */
  function Split(s: string, c: char): (r: seq<string>)
    ensures |r| >= 1
    decreases |s|
  {
    if c !in s then [s] else
      var i := IndexOf(s, c);
      [s[..i]] + Split(s[i + 1..], c)
  }

  lemma {:induction false} IndexOfSeparator(a: string, c: char, b: string)
    requires c !in a
    ensures c in a + [c] + b && IndexOf(a + [c] + b, c) == |a|
  {
    var line := a + [c] + b;
    assert line[|a|] == c;
    if a != [] {
      assert line[0] == a[0];
      assert line[1..] == a[1..] + [c] + b;
      IndexOfSeparator(a[1..], c, b);
    }
  }

  /** Splitting a joined line on its separator recovers the fields when no field holds the separator. */
  lemma {:induction false} SplitJoin(xs: seq<string>, c: char)
    requires |xs| >= 1
    requires forall k :: 0 <= k < |xs| ==> c !in xs[k]
    ensures Split(Join(xs, [c]), c) == xs
  {
    if |xs| > 1 {
      var rest := Join(xs[1..], [c]);
      var line := xs[0] + [c] + rest;
      assert Join(xs, [c]) == line;
      IndexOfSeparator(xs[0], c, rest);
      assert line[..|xs[0]|] == xs[0];
      assert line[|xs[0]| + 1..] == rest;
      assert Split(line, c) == [xs[0]] + Split(rest, c);
      SplitJoin(xs[1..], c);
      assert xs == [xs[0]] + xs[1..];
    }
  }

  // ---------------------------------------------------------------- table columns

  /**
   * truncateString from the list commands: a string longer than `maxLen`
   * is cut to `maxLen - 3` characters plus "...". Go's slice expression
   * panics when `maxLen < 3` and the string is too long, hence the requires.
   */
  function Truncate(s: string, maxLen: int): (r: string)
    requires |s| <= maxLen || maxLen >= 3
    ensures r == s <==> |s| <= maxLen
    ensures |r| == Min(|s|, maxLen)
    ensures |s| > maxLen ==> r[..maxLen - 3] == s[..maxLen - 3] && r[maxLen - 3..] == "..."
  {
    if |s| <= maxLen then s else s[..maxLen - 3] + "..."
  }

  /** The page size sent to the API: the requested limit capped at the API maximum of 10. */
  function PageSize(limit: int): (r: int)
    ensures r <= 10 && r <= limit
    ensures r == limit || r == 10
  {
    if limit > 10 then 10 else limit
  }

  // ---------------------------------------------------------------- sorted integer sets

  function Elems(s: seq<int>): set<int> { set x | x in s }

  predicate StrictlyIncreasing(s: seq<int>)
  {
    forall i, j :: 0 <= i < j < |s| ==> s[i] < s[j]
  }

  /** Insertion of a new element into a strictly increasing sequence. */
  function InsertSorted(s: seq<int>, x: int): (r: seq<int>)
    requires StrictlyIncreasing(s) && x !in s
    ensures StrictlyIncreasing(r)
    ensures Elems(r) == Elems(s) + {x}
    ensures |r| == |s| + 1
  {
    if s == [] then [x]
    else if x < s[0] then [x] + s
    else
      var t := InsertSorted(s[1..], x);
      assert Elems(s) == {s[0]} + Elems(s[1..]);
      assert forall k :: 0 <= k < |t| ==> t[k] in Elems(t);
      [s[0]] + t
  }

  lemma NonEmptySet(s: set<int>)
    requires |s| > 0
    ensures exists x :: x in s
  {
    if forall x :: x !in s {
      assert false;
    }
  }

  /**
   * Collecting the keys of a map in iteration order (unspecified) and then
   * sorting them, as `for d := range m { ds = append(ds, d) }; sort.Strings(ds)`
   * does for calendar days: the result lists every element once, ascending.
   */
  method SortedElements(xs: set<int>) returns (ds: seq<int>)
    ensures StrictlyIncreasing(ds)
    ensures Elems(ds) == xs
    ensures |ds| == |xs|
  {
    var rest := xs;
    ds := [];
    while |rest| > 0
      invariant StrictlyIncreasing(ds)
      invariant Elems(ds) !! rest && Elems(ds) + rest == xs
      invariant |ds| + |rest| == |xs|
      decreases |rest|
    {
      NonEmptySet(rest);
      var d: int :| d in rest;
      ds := InsertSorted(ds, d);
      rest := rest - {d};
    }
  }

  // ---------------------------------------------------------------- ordering by a key

  /** Sorted by `key`, largest first. */
  predicate NonIncreasingBy<T>(xs: seq<T>, key: T -> real)
  {
    forall a, b :: 0 <= a < b < |xs| ==> key(xs[a]) >= key(xs[b])
  }

  /** Insertion into a list sorted by `key`, largest first. */
  function InsertByKey<T>(xs: seq<T>, x: T, key: T -> real): seq<T>
  {
    if xs == [] || key(x) >= key(xs[0]) then [x] + xs else [xs[0]] + InsertByKey(xs[1..], x, key)
  }

  /** Insertion adds exactly `x`, and puts `x` or the old head first. */
  lemma {:induction false} InsertByKeyAdds<T>(xs: seq<T>, x: T, key: T -> real)
    ensures multiset(InsertByKey(xs, x, key)) == multiset(xs) + multiset{x}
    ensures |InsertByKey(xs, x, key)| > 0
    ensures InsertByKey(xs, x, key)[0] == x || (xs != [] && InsertByKey(xs, x, key)[0] == xs[0])
    decreases |xs|
  {
    if !(xs == [] || key(x) >= key(xs[0])) {
      assert xs == [xs[0]] + xs[1..];
      InsertByKeyAdds(xs[1..], x, key);
    }
  }

  /** Insertion keeps a sorted list sorted. */
  lemma {:induction false} InsertByKeySorted<T>(xs: seq<T>, x: T, key: T -> real)
    requires NonIncreasingBy(xs, key)
    ensures NonIncreasingBy(InsertByKey(xs, x, key), key)
    decreases |xs|
  {
    if !(xs == [] || key(x) >= key(xs[0])) {
      InsertByKeySorted(xs[1..], x, key);
      InsertByKeyAdds(xs[1..], x, key);
      var rest := InsertByKey(xs[1..], x, key);
      assert key(xs[0]) >= key(rest[0]);
      var ys := [xs[0]] + rest;
      forall a, b | 0 <= a < b < |ys| ensures key(ys[a]) >= key(ys[b]) {
        if a > 0 {
          assert ys[a] == rest[a - 1] && ys[b] == rest[b - 1];
        } else {
          assert ys[b] == rest[b - 1];
          assert key(rest[0]) >= key(rest[b - 1]);
        }
      }
    }
  }

  /**
   * sort.Slice with `key(a) > key(b)` as the order: the result is sorted and
   * a permutation. Go's order among equal keys is not determined, so nothing
   * more is promised here.
   */
  method SortByKey<T>(xs: seq<T>, key: T -> real) returns (ys: seq<T>)
    ensures NonIncreasingBy(ys, key)
    ensures multiset(ys) == multiset(xs)
  {
    ys := [];
    var i := 0;
    while i < |xs|
      invariant 0 <= i <= |xs|
      invariant NonIncreasingBy(ys, key)
      invariant multiset(ys) == multiset(xs[..i])
    {
      assert xs[..i + 1] == xs[..i] + [xs[i]];
      InsertByKeyAdds(ys, xs[i], key);
      InsertByKeySorted(ys, xs[i], key);
      ys := InsertByKey(ys, xs[i], key);
      i := i + 1;
    }
    assert xs[..i] == xs;
  }

  /** Cutting a sorted list to its first `n` keeps, before everything cut, only what is at least as large. */
  lemma PrefixDominates<T>(xs: seq<T>, n: int, key: T -> real, x: T)
    requires NonIncreasingBy(xs, key) && 0 <= n <= |xs|
    requires x in xs && x !in xs[..n]
    ensures forall y :: y in xs[..n] ==> key(y) >= key(x)
  {
    var b :| 0 <= b < |xs| && xs[b] == x;
    assert b >= n;
    forall y | y in xs[..n] ensures key(y) >= key(x) {
      var a :| 0 <= a < n && xs[..n][a] == y;
      assert xs[a] == y;
    }
  }

  // ---------------------------------------------------------------- duplicates

  predicate NoDuplicates<T(==)>(xs: seq<T>)
  {
    forall a, b :: 0 <= a < b < |xs| ==> xs[a] != xs[b]
  }

  /** Two equal entries make a count of at least two. */
  lemma TwoCopies<T>(b: seq<T>, i: int, j: int)
    requires 0 <= i < j < |b|
    ensures b[i] == b[j] ==> multiset(b)[b[i]] >= 2
  {
    assert b == b[..i] + [b[i]] + b[i + 1..j] + [b[j]] + b[j + 1..];
  }

  lemma {:induction false} CountOne<T>(a: seq<T>, x: T)
    requires NoDuplicates(a) && x in a
    ensures multiset(a)[x] == 1
    decreases |a|
  {
    assert a == [a[0]] + a[1..];
    forall j | 0 <= j < |a| - 1 ensures a[1..][j] != a[0] {
      assert a[1..][j] == a[j + 1];
    }
    if a[0] != x {
      CountOne(a[1..], x);
    }
  }

  /** A permutation of a list without duplicates has none. */
  lemma NoDuplicatesPermutation<T>(a: seq<T>, b: seq<T>)
    requires NoDuplicates(a) && multiset(a) == multiset(b)
    ensures NoDuplicates(b)
  {
    forall x | x in multiset(a) ensures multiset(a)[x] == 1 {
      CountOne(a, x);
    }
    forall i, j | 0 <= i < j < |b| ensures b[i] != b[j] {
      TwoCopies(b, i, j);
      assert b[i] in multiset(b);
    }
  }

  // ---------------------------------------------------------------- filtering

  /** The elements satisfying `p`, in their original order. */
  function Filter<T>(xs: seq<T>, p: T -> bool): seq<T>
  {
    if xs == [] then [] else Filter(xs[..|xs| - 1], p) + (if p(xs[|xs| - 1]) then [xs[|xs| - 1]] else [])
  }

  /** A filter keeps exactly the elements that satisfy the predicate. */
  lemma {:induction false} FilterMembers<T>(xs: seq<T>, p: T -> bool)
    ensures forall x :: x in Filter(xs, p) <==> x in xs && p(x)
    ensures |Filter(xs, p)| <= |xs|
    decreases |xs|
  {
    if xs != [] {
      var init := xs[..|xs| - 1];
      FilterMembers(init, p);
      assert xs == init + [xs[|xs| - 1]];
    }
  }

  /** Filtering distributes over concatenation, so the order of the survivors is kept. */
  lemma {:induction false} FilterAppend<T>(a: seq<T>, b: seq<T>, p: T -> bool)
    ensures Filter(a + b, p) == Filter(a, p) + Filter(b, p)
    decreases |b|
  {
    if b == [] {
      assert a + b == a;
    } else {
      assert (a + b)[..|a + b| - 1] == a + b[..|b| - 1];
      assert (a + b)[|a + b| - 1] == b[|b| - 1];
      FilterAppend(a, b[..|b| - 1], p);
    }
  }

  /** When every element passes, the filter changes nothing. */
  lemma {:induction false} FilterAllPass<T>(xs: seq<T>, p: T -> bool)
    requires forall i :: 0 <= i < |xs| ==> p(xs[i])
    ensures Filter(xs, p) == xs
    decreases |xs|
  {
    if xs != [] {
      var init := xs[..|xs| - 1];
      assert forall i :: 0 <= i < |init| ==> init[i] == xs[i];
      FilterAllPass(init, p);
      assert xs == init + [xs[|xs| - 1]];
    }
  }

  /** The `for _, x := range xs { if p(x) { ys = append(ys, x) } }` loop. */
  method FilterSeq<T>(xs: seq<T>, p: T -> bool) returns (ys: seq<T>)
    ensures ys == Filter(xs, p)
  {
    ys := [];
    var i := 0;
    while i < |xs|
      invariant 0 <= i <= |xs|
      invariant ys == Filter(xs[..i], p)
    {
      assert xs[..i + 1][..i] == xs[..i];
      if p(xs[i]) {
        ys := ys + [xs[i]];
      }
      i := i + 1;
    }
    assert xs[..i] == xs;
  }
}
