/** Shared vocabulary: failure-carrying wrappers, order-preserving filtering,
    first-appearance de-duplication, the lexicographic string order Python
    uses for `str`, and a stable insertion sort on three-part keys. */
module Common {

  datatype Option<+T> = None | Some(value: T) {
    function GetOr(default: T): T {
      match this
      case Some(v) => v
      case None => default
    }
  }

  datatype Result<+T, +E> = Success(value: T) | Failure(error: E)

  datatype Outcome<+E> = Pass | Fail(error: E)

  // ---------------------------------------------------------------------
  // Filtering (pandas boolean-mask selection keeps the surviving rows in order)

  /** `r` is obtained from `s` by deleting elements, keeping the order of the rest. */
  ghost predicate IsSubsequence<T>(r: seq<T>, s: seq<T>)
    decreases |s|
  {
    if |r| == 0 then true
    else if |s| == 0 then false
    else (r[0] == s[0] && IsSubsequence(r[1..], s[1..])) || IsSubsequence(r, s[1..])
  }

  lemma {:induction false} SubsequenceTransitive<T>(a: seq<T>, b: seq<T>, c: seq<T>)
    requires IsSubsequence(a, b) && IsSubsequence(b, c)
    ensures IsSubsequence(a, c)
    decreases |c|
  {
    if |a| == 0 {
    } else if b[0] == c[0] && IsSubsequence(b[1..], c[1..]) {
      if a[0] == b[0] && IsSubsequence(a[1..], b[1..]) {
        SubsequenceTransitive(a[1..], b[1..], c[1..]);
      } else {
        SubsequenceTransitive(a, b[1..], c[1..]);
      }
    } else {
      SubsequenceTransitive(a, b, c[1..]);
    }
  }

  lemma {:induction false} SubsequenceReflexive<T>(s: seq<T>)
    ensures IsSubsequence(s, s)
  {
    if |s| > 0 {
      SubsequenceReflexive(s[1..]);
    }
  }

  /** A slice inside the left operand of a concatenation. */
  lemma SliceLeft<T>(x: seq<T>, y: seq<T>, lo: nat, hi: nat)
    requires lo <= hi <= |x|
    ensures (x + y)[lo..hi] == x[lo..hi]
  {
  }

  /** The right operand of a concatenation, as a slice. */
  lemma SliceRight<T>(x: seq<T>, y: seq<T>)
    ensures (x + y)[|x|..|x| + |y|] == y
  {
  }

  /** An element of the left operand of a concatenation. */
  lemma IndexLeft<T>(x: seq<T>, y: seq<T>, k: nat)
    requires k < |x|
    ensures (x + y)[k] == x[k]
  {
  }

  /** An element of the right operand of a concatenation. */
  lemma IndexRight<T>(x: seq<T>, y: seq<T>, k: nat)
    requires k < |y|
    ensures (x + y)[|x| + k] == y[k]
  {
  }

  /** A prefix one longer ends in the next element. */
  lemma PrefixSnoc<T>(s: seq<T>, i: nat)
    requires i < |s|
    ensures s[..i + 1] == s[..i] + [s[i]]
  {
  }

  /** Multiplying by the same factor keeps the order. */
  lemma MulMono(a: nat, b: nat, k: nat)
    requires a <= b
    ensures a * k <= b * k
  {
  }

  /** Element `b` of block `ci` when `n` blocks of `k` are followed by one more. */
  lemma BlockIndexAt<T>(front: seq<T>, last: seq<T>, n: nat, k: nat, ci: nat, b: nat)
    requires |front| == n * k && |last| == k && ci <= n && b < k
    ensures ci * k + b < |front + last|
    ensures ci < n ==> ci * k + b < |front| && (front + last)[ci * k + b] == front[ci * k + b]
    ensures ci == n ==> (front + last)[ci * k + b] == last[b]
  {
    if ci < n {
      MulMono(ci + 1, n, k);
      assert (ci + 1) * k == ci * k + k;
    } else {
      IndexRight(front, last, b);
    }
  }

  /** Block `i` of width `w` when `n` blocks of `w` are followed by one more. */
  lemma BlockSliceAt<T>(front: seq<T>, last: seq<T>, n: nat, w: nat, i: nat)
    requires |front| == n * w && |last| == w && i <= n
    ensures w * i + w <= |front + last|
    ensures i < n ==> w * i + w <= |front| && (front + last)[w * i .. w * i + w] == front[w * i .. w * i + w]
    ensures i == n ==> (front + last)[w * i .. w * i + w] == last
  {
    if i < n {
      MulMono(i + 1, n, w);
      assert w * (i + 1) == w * i + w;
      SliceLeft(front, last, w * i, w * i + w);
    } else {
      SliceRight(front, last);
    }
  }

  /** The elements of `s` that satisfy `p`, in their original order. */
  function Filter<T(!new)>(s: seq<T>, p: T -> bool): (r: seq<T>)
    ensures |r| <= |s|
    ensures forall x :: x in r <==> x in s && p(x)
    ensures IsSubsequence(r, s)
  {
    if |s| == 0 then []
    else
      var rest := Filter(s[1..], p);
      if p(s[0]) then [s[0]] + rest else rest
  }

  /** Nothing survives a filter that no element satisfies. */
  lemma {:induction false} FilterNone<T(!new)>(s: seq<T>, p: T -> bool)
    requires forall x :: x in s ==> !p(x)
    ensures Filter(s, p) == []
  {
    if |s| > 0 {
      assert s[0] in s;
      FilterNone(s[1..], p);
    }
  }

  lemma {:induction false} FilterAll<T(!new)>(s: seq<T>, p: T -> bool)
    requires forall x :: x in s ==> p(x)
    ensures Filter(s, p) == s
  {
    if |s| > 0 {
      FilterAll(s[1..], p);
    }
  }

  // ---------------------------------------------------------------------
  // Distinct values (pandas `unique()`: first-appearance order)

  ghost predicate NoDuplicates<T>(s: seq<T>) {
    forall i, j :: 0 <= i < j < |s| ==> s[i] != s[j]
  }

  function Distinct<T(==, !new)>(s: seq<T>): (r: seq<T>)
    ensures forall x :: x in r <==> x in s
    ensures NoDuplicates(r)
    ensures |r| <= |s|
  {
    if |s| == 0 then []
    else
      var d := Distinct(s[..|s| - 1]);
      assert s == s[..|s| - 1] + [s[|s| - 1]];
      if s[|s| - 1] in d then d else d + [s[|s| - 1]]
  }

  /** Position of the first occurrence of `x` in `s`. */
  function IndexOf<T(==)>(s: seq<T>, x: T): (i: nat)
    requires x in s
    ensures i < |s| && s[i] == x
    ensures x !in s[..i]
  {
    if s[0] == x then 0 else 1 + IndexOf(s[1..], x)
  }

  function Sum(xs: seq<int>): int {
    if |xs| == 0 then 0 else xs[0] + Sum(xs[1..])
  }

  // ---------------------------------------------------------------------
  // Lexicographic order on strings (Python compares `str` by code point)

  predicate StrLt(a: string, b: string)
    decreases |a|
  {
    if |a| == 0 then |b| > 0
    else if |b| == 0 then false
    else if a[0] != b[0] then a[0] < b[0]
    else StrLt(a[1..], b[1..])
  }

  lemma {:induction false} StrLtIrreflexive(a: string)
    ensures !StrLt(a, a)
  {
    if |a| > 0 {
      StrLtIrreflexive(a[1..]);
    }
  }

  lemma {:induction false} StrLtTransitive(a: string, b: string, c: string)
    requires StrLt(a, b) && StrLt(b, c)
    ensures StrLt(a, c)
    decreases |a|
  {
    if |a| > 0 && a[0] == b[0] && b[0] == c[0] {
      StrLtTransitive(a[1..], b[1..], c[1..]);
    }
  }

  lemma {:induction false} StrLtTotal(a: string, b: string)
    ensures a == b || StrLt(a, b) || StrLt(b, a)
    decreases |a|
  {
    if |a| > 0 && |b| > 0 && a[0] == b[0] {
      StrLtTotal(a[1..], b[1..]);
      if a[1..] == b[1..] {
        assert a == [a[0]] + a[1..] && b == [b[0]] + b[1..];
      }
    }
  }

  lemma {:induction false} StrLtAsymmetric(a: string, b: string)
    requires StrLt(a, b)
    ensures !StrLt(b, a)
  {
    if StrLt(b, a) {
      StrLtTransitive(a, b, a);
      StrLtIrreflexive(a);
    }
  }

  // ---------------------------------------------------------------------
  // Three-part keys, compared lexicographically (pandas sort_values by three columns)

  datatype OrderKey = OrderKey(first: string, second: string, third: int)

  predicate KeyLe(x: OrderKey, y: OrderKey) {
    StrLt(x.first, y.first)
    || (x.first == y.first && (StrLt(x.second, y.second) || (x.second == y.second && x.third <= y.third)))
  }

  lemma KeyLeTotal(x: OrderKey, y: OrderKey)
    ensures KeyLe(x, y) || KeyLe(y, x)
  {
    StrLtTotal(x.first, y.first);
    StrLtTotal(x.second, y.second);
  }

  lemma KeyLeTransitive(x: OrderKey, y: OrderKey, z: OrderKey)
    requires KeyLe(x, y) && KeyLe(y, z)
    ensures KeyLe(x, z)
  {
    if StrLt(x.first, y.first) && StrLt(y.first, z.first) {
      StrLtTransitive(x.first, y.first, z.first);
    }
    if x.first == y.first == z.first && StrLt(x.second, y.second) && StrLt(y.second, z.second) {
      StrLtTransitive(x.second, y.second, z.second);
    }
  }

  lemma KeyLeAntisymmetric(x: OrderKey, y: OrderKey)
    requires KeyLe(x, y) && KeyLe(y, x)
    ensures x == y
  {
    if StrLt(x.first, y.first) {
      StrLtAsymmetric(x.first, y.first);
    } else if StrLt(y.first, x.first) {
      StrLtAsymmetric(y.first, x.first);
    } else if StrLt(x.second, y.second) {
      StrLtAsymmetric(x.second, y.second);
    } else if StrLt(y.second, x.second) {
      StrLtAsymmetric(y.second, x.second);
    }
  }

  ghost predicate SortedBy<T>(s: seq<T>, key: T -> OrderKey) {
    forall i, j :: 0 <= i < j < |s| ==> KeyLe(key(s[i]), key(s[j]))
  }

  lemma {:induction false} SortedFilter<T(!new)>(s: seq<T>, key: T -> OrderKey, p: T -> bool)
    requires SortedBy(s, key)
    ensures SortedBy(Filter(s, p), key)
  {
    if |s| > 0 {
      SortedFilter(s[1..], key, p);
      var rest := Filter(s[1..], p);
      if p(s[0]) {
        var r := [s[0]] + rest;
        forall i, j | 0 <= i < j < |r| ensures KeyLe(key(r[i]), key(r[j])) {
          if i == 0 {
            assert r[j] in s[1..];
          }
        }
      }
    }
  }

  function Insert<T(!new)>(x: T, s: seq<T>, key: T -> OrderKey): (r: seq<T>)
    requires SortedBy(s, key)
    ensures SortedBy(r, key)
    ensures multiset(r) == multiset(s) + multiset{x}
  {
    if |s| == 0 then [x]
    else if KeyLe(key(x), key(s[0])) then
      InsertFrontSorted(x, s, key);
      [x] + s
    else
      KeyLeTotal(key(x), key(s[0]));
      var rest := Insert(x, s[1..], key);
      assert s == [s[0]] + s[1..];
      InsertBehindSorted(x, s, rest, key);
      [s[0]] + rest
  }

  /** A stable insertion sort: the rows come out ordered by `key` and are a permutation of the input. */
  function SortBy<T(!new)>(s: seq<T>, key: T -> OrderKey): (r: seq<T>)
    ensures SortedBy(r, key)
    ensures multiset(r) == multiset(s)
    ensures |r| == |s|
  {
    if |s| == 0 then []
    else
      assert s == [s[0]] + s[1..];
      var r := Insert(s[0], SortBy(s[1..], key), key);
      assert |r| == |multiset(r)|;
      r
  }

  /** Sorting keeps exactly the elements it is given. */
  lemma SortByMembers<T(!new)>(s: seq<T>, key: T -> OrderKey)
    ensures forall x :: x in SortBy(s, key) <==> x in s
  {
    var r := SortBy(s, key);
    forall x ensures x in r <==> x in s {
      assert x in r <==> x in multiset(r);
      assert x in s <==> x in multiset(s);
    }
  }

  lemma InsertFrontSorted<T(!new)>(x: T, s: seq<T>, key: T -> OrderKey)
    requires SortedBy(s, key) && |s| > 0 && KeyLe(key(x), key(s[0]))
    ensures SortedBy([x] + s, key)
  {
    var r := [x] + s;
    forall i, j | 0 <= i < j < |r| ensures KeyLe(key(r[i]), key(r[j])) {
      if i == 0 && j > 1 {
        KeyLeTransitive(key(x), key(s[0]), key(s[j - 1]));
      }
    }
  }

  /** Inserting `x` behind the head of `s` keeps the head in front. */
  lemma InsertBehindSorted<T(!new)>(x: T, s: seq<T>, rest: seq<T>, key: T -> OrderKey)
    requires SortedBy(s, key) && |s| > 0 && KeyLe(key(s[0]), key(x))
    requires SortedBy(rest, key)
    requires multiset(rest) == multiset(s[1..]) + multiset{x}
    ensures SortedBy([s[0]] + rest, key)
  {
    forall z | z in rest
      ensures KeyLe(key(s[0]), key(z))
    {
      assert z in multiset(rest);
      if z != x {
        assert z in multiset(s[1..]);
        var k :| 0 <= k < |s[1..]| && s[1..][k] == z;
        assert s[k + 1] == z;
      }
    }
    ConsSorted(s[0], rest, key);
  }

  lemma ConsSorted<T(!new)>(y: T, rest: seq<T>, key: T -> OrderKey)
    requires SortedBy(rest, key)
    requires forall z :: z in rest ==> KeyLe(key(y), key(z))
    ensures SortedBy([y] + rest, key)
  {
    var r := [y] + rest;
    forall i, j | 0 <= i < j < |r| ensures KeyLe(key(r[i]), key(r[j])) {
      if i == 0 {
        assert r[j] in rest;
      }
    }
  }
}
