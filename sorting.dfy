/** Ordering of query results: MongoDB's `.sort(...)` and `.limit(n)` and
    JavaScript's `Array.prototype.sort`, as an insertion sort over an
    arbitrary total preorder; the order it leaves equal elements in is
    not stated. */
module Sorting {

  /** `le` is total and transitive, so "sorted by le" is well defined. */
  ghost predicate TotalPreorder<T(!new)>(le: (T, T) -> bool) {
    && (forall a, b :: le(a, b) || le(b, a))
    && (forall a, b, c :: le(a, b) && le(b, c) ==> le(a, c))
  }

  ghost predicate Sorted<T(!new)>(s: seq<T>, le: (T, T) -> bool) {
    forall i, j :: 0 <= i < j < |s| ==> le(s[i], s[j])
  }

  /** A non-empty sequence is its head followed by its tail. */
  lemma HeadTail<T>(s: seq<T>)
    requires s != []
    ensures [s[0]] + s[1..] == s
    ensures |s| == 1 ==> [s[0]] == s
  {
  }

  /** Inserts `x` into the sorted `s` before the first element it is `le` to. */
  function Insert<T(!new)>(x: T, s: seq<T>, le: (T, T) -> bool): (r: seq<T>)
    requires TotalPreorder(le) && Sorted(s, le)
    ensures multiset(r) == multiset(s) + multiset{x}
    ensures Sorted(r, le)
  {
    if s == [] then [x]
    else if le(x, s[0]) then
      [x] + s
    else
      var tail := Insert(x, s[1..], le);
      HeadTail(s);
      HeadAboveInsert(x, s, tail, le);
      [s[0]] + tail
  }

  /** The head of a sorted `s` that `x` does not go before is `le` to every
      element of `x` inserted into the tail. */
  lemma {:induction false} HeadAboveInsert<T(!new)>(x: T, s: seq<T>, tail: seq<T>, le: (T, T) -> bool)
    requires TotalPreorder(le) && Sorted(s, le) && s != [] && !le(x, s[0])
    requires multiset(tail) == multiset(s[1..]) + multiset{x}
    ensures forall k | 0 <= k < |tail| :: le(s[0], tail[k])
  {
    forall k | 0 <= k < |tail| ensures le(s[0], tail[k]) {
      assert tail[k] in multiset(tail);
      if tail[k] != x {
        assert tail[k] in multiset(s[1..]);
        var m :| 0 <= m < |s[1..]| && s[1..][m] == tail[k];
        assert s[m + 1] == tail[k];
      }
    }
  }

  /** The elements of `s`, reordered so that each is `le` to the ones after it. */
  function Sort<T(!new)>(s: seq<T>, le: (T, T) -> bool): (r: seq<T>)
    requires TotalPreorder(le)
    ensures multiset(r) == multiset(s)
    ensures Sorted(r, le)
  {
    if s == [] then []
    else
      assert s == [s[0]] + s[1..];
      Insert(s[0], Sort(s[1..], le), le)
  }

  /** Sorting brings in no new element. */
  lemma {:induction false} SortKeepsMembers<T(!new)>(s: seq<T>, le: (T, T) -> bool)
    requires TotalPreorder(le)
    ensures forall x | x in Sort(s, le) :: x in s
  {
    forall x | x in Sort(s, le) ensures x in s {
      assert x in multiset(Sort(s, le));
    }
  }

  /** `.limit(n)`: the first `n` elements, or all of them when there are fewer. */
  function Take<T>(s: seq<T>, n: nat): (r: seq<T>)
    ensures |r| == if |s| < n then |s| else n
    ensures r == s[..|r|]
  {
    if |s| <= n then s else s[..n]
  }

  /** `.limit(n)` as MongoDB reads it: 0 is no limit, and a negative
      limit returns at most `-n` documents. */
  function Limit<T>(s: seq<T>, n: int): (r: seq<T>)
    ensures |r| <= |s| && r == s[..|r|]
    ensures |r| == if n == 0 || |s| <= n || |s| <= -n then |s| else if n > 0 then n else -n
  {
    if n == 0 then s else Take(s, if n > 0 then n else -n)
  }

  /** In a sorted sequence, an element that a prefix leaves out is
      ordered after every element the prefix keeps. */
  lemma {:induction false} TakeKeepsTop<T(!new)>(s: seq<T>, le: (T, T) -> bool, n: nat, x: T)
    requires Sorted(s, le) && x in s
    ensures x in Take(s, n) || forall i | 0 <= i < |Take(s, n)| :: le(Take(s, n)[i], x)
  {
    var j :| 0 <= j < |s| && s[j] == x;
    var t := Take(s, n);
    if j < |t| {
      assert t[j] == x;
    } else {
      forall i | 0 <= i < |t| ensures le(t[i], x) {
        assert t[i] == s[i] && i < j;
      }
    }
  }

  /** The elements of `s` that `keep` selects, in their order
      (`Array.prototype.filter`, or a query's filter over a ledger). */
  function Filter<T(!new)>(s: seq<T>, keep: T -> bool): (r: seq<T>)
    ensures forall i | 0 <= i < |r| :: keep(r[i]) && r[i] in s
    ensures forall x | x in s && keep(x) :: x in r
    ensures forall x | keep(x) :: multiset(r)[x] == multiset(s)[x]
    ensures forall x | !keep(x) :: multiset(r)[x] == 0
  {
    if s == [] then []
    else
      var init := s[..|s| - 1];
      var last := s[|s| - 1];
      assert s == init + [last];
      var rest := Filter(init, keep);
      if keep(last) then rest + [last] else rest
  }

  /** Appending an element the filter drops leaves the selection as it was. */
  lemma {:induction false} FilterSkips<T(!new)>(s: seq<T>, keep: T -> bool, x: T)
    requires !keep(x)
    ensures Filter(s + [x], keep) == Filter(s, keep)
  {
    assert (s + [x])[..|s + [x]| - 1] == s;
  }

  /** A non-empty sequence is its front followed by its last element. */
  lemma InitLast<T>(s: seq<T>)
    requires s != []
    ensures s[..|s| - 1] + [s[|s| - 1]] == s
  {
  }

  lemma Assoc<T>(a: seq<T>, b: seq<T>, c: seq<T>)
    ensures a + (b + c) == (a + b) + c
  {
  }

  /** The selection of a list with one element appended. */
  lemma {:induction false} FilterSnoc<T(!new)>(s: seq<T>, x: T, keep: T -> bool)
    ensures Filter(s + [x], keep) == Filter(s, keep) + (if keep(x) then [x] else [])
  {
    assert (s + [x])[..|s + [x]| - 1] == s;
  }

  /** Filtering keeps the order: the selection of a concatenation is the
      two selections concatenated. */
  lemma {:induction false} FilterAppend<T(!new)>(a: seq<T>, b: seq<T>, keep: T -> bool)
    ensures Filter(a + b, keep) == Filter(a, keep) + Filter(b, keep)
    decreases |b|
  {
    if b == [] {
      assert a + b == a;
    } else {
      var b', y := b[..|b| - 1], b[|b| - 1];
      var e := if keep(y) then [y] else [];
      InitLast(b);
      Assoc(a, b', [y]);
      FilterAppend(a, b', keep);
      FilterSnoc(a + b', y, keep);
      FilterSnoc(b', y, keep);
      Assoc(Filter(a, keep), Filter(b', keep), e);
    }
  }

  /** The selection of a list with one element put in front. */
  lemma {:induction false} FilterCons<T(!new)>(x: T, s: seq<T>, keep: T -> bool)
    ensures Filter([x] + s, keep) == (if keep(x) then [x] else []) + Filter(s, keep)
  {
    FilterAppend([x], s, keep);
    assert [x][..|[x]| - 1] == [];
    assert Filter([x], keep) == (if keep(x) then [x] else []);
  }

  /** Ordering by an integer key, greatest first (`.sort({ key: -1 })`). */
  function Descending<T(!new)>(key: T -> int): (le: (T, T) -> bool)
    ensures forall a, b :: le(a, b) <==> key(a) >= key(b)
  {
    (a: T, b: T) => key(a) >= key(b)
  }

  lemma DescendingIsPreorder<T(!new)>(key: T -> int)
    ensures TotalPreorder(Descending(key))
  {
  }

  lemma SortedPrefix<T(!new)>(s: seq<T>, le: (T, T) -> bool, n: nat)
    requires Sorted(s, le) && n <= |s|
    ensures Sorted(s[..n], le)
  {
  }

  /** Lexicographic code-point order on strings (MongoDB's default string sort). */
  predicate LexLe(a: string, b: string)
    decreases |a|
  {
    a == [] || (b != [] && (a[0] < b[0] || (a[0] == b[0] && LexLe(a[1..], b[1..]))))
  }

  lemma {:induction false} LexLeTotal(a: string, b: string)
    ensures LexLe(a, b) || LexLe(b, a)
    decreases |a|
  {
    if a != [] && b != [] && a[0] == b[0] {
      LexLeTotal(a[1..], b[1..]);
    }
  }

  lemma {:induction false} LexLeTransitive(a: string, b: string, c: string)
    requires LexLe(a, b) && LexLe(b, c)
    ensures LexLe(a, c)
    decreases |a|
  {
    if a != [] && b != [] && c != [] && a[0] == b[0] && b[0] == c[0] {
      LexLeTransitive(a[1..], b[1..], c[1..]);
    }
  }
}
