/** The array operations the TypeScript code relies on: `filter`, `find`,
    `findIndex`, `join` and `split`, plus the key-collapsing effect of writing
    the same key twice into an object. */
module Seqs {
  import opened Wrappers

  /** `s.filter(p)`: the elements of `s` satisfying `p`, in their order. */
  function Filter<T>(s: seq<T>, p: T -> bool): (r: seq<T>)
    ensures |r| <= |s|
    ensures forall i :: 0 <= i < |r| ==> r[i] in s && p(r[i])
    ensures forall i :: 0 <= i < |s| && p(s[i]) ==> s[i] in r
  {
    if s == [] then [] else (if p(s[0]) then [s[0]] else []) + Filter(s[1..], p)
  }

  /** Filtering distributes over concatenation: this is what "order-preserving" means. */
  lemma {:induction false} FilterAppend<T>(a: seq<T>, b: seq<T>, p: T -> bool)
    ensures Filter(a + b, p) == Filter(a, p) + Filter(b, p)
  {
    if a == [] {
      assert a + b == b;
    } else {
      assert (a + b)[1..] == a[1..] + b;
      FilterAppend(a[1..], b, p);
    }
  }

  /** Appending one element shows up at the end of the filtered view, or not at all. */
  lemma FilterSnoc<T>(s: seq<T>, x: T, p: T -> bool)
    ensures Filter(s + [x], p) == Filter(s, p) + (if p(x) then [x] else [])
  {
    FilterAppend(s, [x], p);
  }

  /** Two predicates that agree on the elements of `s` filter it alike. */
  lemma {:induction false} FilterCongruent<T>(s: seq<T>, p: T -> bool, q: T -> bool)
    requires forall x :: x in s ==> p(x) == q(x)
    ensures Filter(s, p) == Filter(s, q)
  {
    if s != [] {
      FilterCongruent(s[1..], p, q);
    }
  }

  /** `x => p(x) && q(x)` */
  function Both<T>(p: T -> bool, q: T -> bool): T -> bool {
    x => p(x) && q(x)
  }

  /** Two filters in a row are one filter by the conjunction. */
  lemma {:induction false} FilterFilter<T>(s: seq<T>, p: T -> bool, q: T -> bool)
    ensures Filter(Filter(s, p), q) == Filter(s, Both(p, q))
  {
    if s != [] {
      FilterFilter(s[1..], p, q);
      assert Both(p, q)(s[0]) == (p(s[0]) && q(s[0]));
      if p(s[0]) {
        var fp := Filter(s, p);
        assert fp == [s[0]] + Filter(s[1..], p);
        assert fp[0] == s[0] && fp[1..] == Filter(s[1..], p);
      } else {
        assert Filter(s, p) == Filter(s[1..], p);
      }
    }
  }

  /** A filter that keeps everything is the identity. */
  lemma {:induction false} FilterKeepsAll<T>(s: seq<T>, p: T -> bool)
    requires forall x :: x in s ==> p(x)
    ensures Filter(s, p) == s
  {
    if s != [] {
      FilterKeepsAll(s[1..], p);
    }
  }

  /** Filtering twice by the same predicate changes nothing more. */
  lemma FilterIdempotent<T>(s: seq<T>, p: T -> bool)
    ensures Filter(Filter(s, p), p) == Filter(s, p)
  {
    FilterKeepsAll(Filter(s, p), p);
  }

  /** `i` is the index `findIndex(p)` returns: the first element satisfying `p`. */
  ghost predicate IsFirstMatch<T>(s: seq<T>, p: T -> bool, i: int) {
    0 <= i < |s| && p(s[i]) && forall j :: 0 <= j < i ==> !p(s[j])
  }

  /** `s.findIndex(p)`, with `None` for -1. */
  function IndexOfFirst<T>(s: seq<T>, p: T -> bool): (r: Option<nat>)
    ensures r.None? <==> forall x :: x in s ==> !p(x)
    ensures r.Some? ==> IsFirstMatch(s, p, r.value)
  {
    if s == [] then None
    else if p(s[0]) then Some(0)
    else match IndexOfFirst(s[1..], p)
      case None => None
      case Some(i) => Some(i + 1)
  }

  /** `s.find(p)`, with `None` for `undefined`. */
  function First<T>(s: seq<T>, p: T -> bool): (r: Option<T>)
    ensures r.None? <==> forall x :: x in s ==> !p(x)
    ensures forall i :: IsFirstMatch(s, p, i) ==> r == Some(s[i])
  {
    match IndexOfFirst(s, p)
    case None => None
    case Some(i) => Some(s[i])
  }

  /** The distinct elements of `s` in order of first occurrence: the keys an
      object ends up with when every element of `s` is written into it. */
  function Dedup<T(==)>(s: seq<T>): (r: seq<T>)
    ensures forall i :: 0 <= i < |r| ==> r[i] in s
    ensures forall i :: 0 <= i < |s| ==> s[i] in r
    ensures forall i, j :: 0 <= i < j < |r| ==> r[i] != r[j]
    ensures |r| <= |s|
  {
    if s == [] then []
    else
      var d := Dedup(s[..|s| - 1]);
      assert s == s[..|s| - 1] + [s[|s| - 1]];
      if s[|s| - 1] in d then d else d + [s[|s| - 1]]
  }

  /** `parts.join(sep)` */
  function Join<T>(parts: seq<seq<T>>, sep: seq<T>): seq<T> {
    if |parts| == 0 then []
    else if |parts| == 1 then parts[0]
    else parts[0] + sep + Join(parts[1..], sep)
  }

  /** Joining one more part adds the separator and that part at the end. */
  lemma {:induction false} JoinSnoc<T>(parts: seq<seq<T>>, x: seq<T>, sep: seq<T>)
    requires parts != []
    ensures Join(parts + [x], sep) == Join(parts, sep) + sep + x
  {
    if |parts| == 1 {
      assert (parts + [x])[1..] == [x];
    } else {
      assert (parts + [x])[1..] == parts[1..] + [x];
      JoinSnoc(parts[1..], x, sep);
    }
  }

  /** A separator-free part list joins to a separator-free sequence. */
  lemma {:induction false} JoinAvoids<T>(parts: seq<seq<T>>, sep: seq<T>, d: T)
    requires d !in sep
    requires forall i :: 0 <= i < |parts| ==> d !in parts[i]
    ensures d !in Join(parts, sep)
  {
    if |parts| > 1 {
      JoinAvoids(parts[1..], sep, d);
    }
  }

  /** `s.split(d)` for a one-element separator. The first piece is the part of
      `s` before the first `d` (all of `s` when there is none). */
  function Split<T(==)>(s: seq<T>, d: T): (r: seq<seq<T>>)
    ensures |r| >= 1
    ensures forall i :: 0 <= i < |r| ==> d !in r[i]
    ensures r[0] <= s
    ensures |r[0]| < |s| ==> s[|r[0]|] == d
  {
    if s == [] then [[]]
    else
      var rest := Split(s[1..], d);
      if s[0] == d then [[]] + rest else [[s[0]] + rest[0]] + rest[1..]
  }

  lemma {:induction false} SplitNoSeparator<T>(a: seq<T>, d: T)
    requires d !in a
    ensures Split(a, d) == [a]
  {
    if a != [] {
      SplitNoSeparator(a[1..], d);
      assert a[0] != d;
      assert [a[0]] + a[1..] == a;
    }
  }

  lemma {:induction false} SplitAtFirst<T>(a: seq<T>, b: seq<T>, d: T)
    requires d !in a
    ensures Split(a + [d] + b, d) == [a] + Split(b, d)
  {
    if a == [] {
      assert a + [d] + b == [d] + b;
      assert ([d] + b)[1..] == b;
    } else {
      assert (a + [d] + b)[1..] == a[1..] + [d] + b;
      SplitAtFirst(a[1..], b, d);
      assert (a + [d] + b)[0] == a[0] != d;
      assert [a[0]] + a[1..] == a;
    }
  }

  /** `join` and `split` are inverse when no part contains the separator. */
  lemma {:induction false} SplitJoin<T>(parts: seq<seq<T>>, d: T)
    requires |parts| >= 1
    requires forall i :: 0 <= i < |parts| ==> d !in parts[i]
    ensures Split(Join(parts, [d]), d) == parts
  {
    if |parts| == 1 {
      SplitNoSeparator(parts[0], d);
    } else {
      SplitJoin(parts[1..], d);
      SplitAtFirst(parts[0], Join(parts[1..], [d]), d);
    }
  }
}
