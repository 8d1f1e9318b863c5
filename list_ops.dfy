/**
 * The list idioms the pages are built from: JavaScript's `filter`, `flatMap`,
 * `Array.from(new Set(...))` and the "remove if present, else append" toggle.
 */
module ListOps {

  /** `a` is `b` with some elements left out and the others kept in order. */
  predicate IsSublist<T(==)>(a: seq<T>, b: seq<T>)
    decreases |b|
  {
    if a == [] then true
    else if b == [] then false
    else if a[0] == b[0] then IsSublist(a[1..], b[1..])
    else IsSublist(a, b[1..])
  }

  /** Every element of `s` occurs once. */
  predicate NoDup<T(==)>(s: seq<T>) {
    forall i, j :: 0 <= i < j < |s| ==> s[i] != s[j]
  }

  /** `s.filter(p)`: the elements of `s` that satisfy `p`, in their original order. */
  function Filter<T>(s: seq<T>, p: T -> bool): (r: seq<T>)
    ensures |r| <= |s|
    ensures forall i :: 0 <= i < |r| ==> r[i] in s && p(r[i])
    ensures forall i :: 0 <= i < |s| && p(s[i]) ==> s[i] in r
  {
    if s == [] then []
    else if p(s[0]) then [s[0]] + Filter(s[1..], p)
    else Filter(s[1..], p)
  }

  /** `filter` keeps exactly the satisfying elements, with their multiplicities, in order. */
  lemma {:induction false} FilterIsOrderedSelection<T>(s: seq<T>, p: T -> bool)
    ensures IsSublist(Filter(s, p), s)
    ensures forall x :: multiset(Filter(s, p))[x] == if p(x) then multiset(s)[x] else 0
  {
    if s != [] {
      FilterIsOrderedSelection(s[1..], p);
      assert s == [s[0]] + s[1..];
      var r := Filter(s, p);
      if p(s[0]) {
        assert r[0] == s[0] && r[1..] == Filter(s[1..], p);
      } else if r != [] {
        assert r[0] != s[0];
      }
    }
  }

  /** When every element satisfies `p`, `filter` returns its input. */
  lemma {:induction false} FilterKeepsAll<T>(s: seq<T>, p: T -> bool)
    requires forall i :: 0 <= i < |s| ==> p(s[i])
    ensures Filter(s, p) == s
  {
    if s != [] {
      FilterKeepsAll(s[1..], p);
    }
  }

  /** When no element satisfies `p`, `filter` returns the empty list. */
  lemma {:induction false} FilterDropsAll<T>(s: seq<T>, p: T -> bool)
    requires forall i :: 0 <= i < |s| ==> !p(s[i])
    ensures Filter(s, p) == []
  {
    if s != [] {
      FilterDropsAll(s[1..], p);
    }
  }

  /** `filter` returns the empty list exactly when no element satisfies `p`. */
  lemma FilterEmptyIff<T>(s: seq<T>, p: T -> bool)
    ensures Filter(s, p) == [] <==> forall i :: 0 <= i < |s| ==> !p(s[i])
  {
    if forall i :: 0 <= i < |s| ==> !p(s[i]) {
      FilterDropsAll(s, p);
    } else {
      var i :| 0 <= i < |s| && p(s[i]);
      assert s[i] in Filter(s, p);
    }
  }

  /** Two rejected positions make the result at least two shorter. */
  lemma {:induction false} FilterDropsTwo<T>(s: seq<T>, p: T -> bool, i: int, j: int)
    requires 0 <= i < j < |s| && !p(s[i]) && !p(s[j])
    ensures |Filter(s, p)| <= |s| - 2
  {
    if i > 0 {
      FilterDropsTwo(s[1..], p, i - 1, j - 1);
    } else {
      FilterDropsOne(s[1..], p, j - 1);
    }
  }

  /** A rejected position makes the result at least one shorter. */
  lemma {:induction false} FilterDropsOne<T>(s: seq<T>, p: T -> bool, j: int)
    requires 0 <= j < |s| && !p(s[j])
    ensures |Filter(s, p)| <= |s| - 1
  {
    if j > 0 {
      FilterDropsOne(s[1..], p, j - 1);
    }
  }

  /** Taking out the element at `i` takes exactly that element out of the multiset. */
  lemma RemoveOneCount<T>(s: seq<T>, i: int)
    requires 0 <= i < |s|
    ensures |s[..i] + s[i + 1..]| == |s| - 1
    ensures multiset(s[..i] + s[i + 1..]) + multiset{s[i]} == multiset(s)
  {
    assert s == s[..i] + [s[i]] + s[i + 1..];
  }

  /** Predicates that agree on the elements of `s` select the same elements. */
  lemma {:induction false} FilterCongruent<T>(s: seq<T>, p: T -> bool, q: T -> bool)
    requires forall i :: 0 <= i < |s| ==> p(s[i]) == q(s[i])
    ensures Filter(s, p) == Filter(s, q)
  {
    if s != [] {
      FilterCongruent(s[1..], p, q);
    }
  }

  /** Filtering twice is filtering once by both predicates. */
  lemma {:induction false} FilterFilter<T>(s: seq<T>, p: T -> bool, q: T -> bool, both: T -> bool)
    requires forall x :: both(x) == (p(x) && q(x))
    ensures Filter(Filter(s, p), q) == Filter(s, both)
  {
    if s != [] {
      FilterFilter(s[1..], p, q, both);
      if p(s[0]) {
        assert Filter(s, p)[0] == s[0] && Filter(s, p)[1..] == Filter(s[1..], p);
      }
    }
  }

  /** `filter` distributes over concatenation. */
  lemma {:induction false} FilterAppend<T>(a: seq<T>, b: seq<T>, p: T -> bool)
    ensures Filter(a + b, p) == Filter(a, p) + Filter(b, p)
  {
    if a == [] {
      assert a + b == b;
    } else {
      assert (a + b)[1..] == a[1..] + b;
      FilterAppend(a[1..], b, p);
    }
  }

  /** `filter` of a duplicate-free list is duplicate-free. */
  lemma {:induction false} FilterNoDup<T>(s: seq<T>, p: T -> bool)
    requires NoDup(s)
    ensures NoDup(Filter(s, p))
  {
    if s != [] {
      NoDupTail(s);
      FilterNoDup(s[1..], p);
      if p(s[0]) {
        var rest := Filter(s[1..], p);
        assert s[0] !in rest by {
          forall k | 0 <= k < |rest| ensures rest[k] != s[0] {
            NoDupHeadFresh(s, rest[k]);
          }
        }
        NoDupCons(s[0], rest);
      }
    }
  }

  /** The tail of a duplicate-free list is duplicate-free. */
  lemma NoDupTail<T>(s: seq<T>)
    requires s != [] && NoDup(s)
    ensures NoDup(s[1..])
  {
    forall i, j | 0 <= i < j < |s[1..]| ensures s[1..][i] != s[1..][j] {
      assert s[1..][i] == s[i + 1] && s[1..][j] == s[j + 1];
    }
  }

  /** The head of a duplicate-free list is none of the tail's elements. */
  lemma NoDupHeadFresh<T>(s: seq<T>, x: T)
    requires s != [] && NoDup(s) && x in s[1..]
    ensures x != s[0]
  {
    var k :| 0 <= k < |s[1..]| && s[1..][k] == x;
    assert s[k + 1] == x;
  }

  /** Putting an element that is not in a duplicate-free list before it keeps it duplicate-free. */
  lemma NoDupCons<T>(x: T, r: seq<T>)
    requires NoDup(r) && x !in r
    ensures NoDup([x] + r)
  {
    forall i, j | 0 <= i < j < |[x] + r| ensures ([x] + r)[i] != ([x] + r)[j] {
      assert ([x] + r)[j] == r[j - 1];
      if i > 0 {
        assert ([x] + r)[i] == r[i - 1];
      }
    }
  }

  /** `y => y !== x`. */
  function NotEqual<T(==)>(x: T): T -> bool {
    y => y != x
  }

  /** `s` with every occurrence of `x` removed: `s.filter(y => y !== x)`. */
  function Without<T(==)>(s: seq<T>, x: T): (r: seq<T>)
    ensures x !in r
    ensures forall i :: 0 <= i < |r| ==> r[i] in s
    ensures forall i :: 0 <= i < |s| && s[i] != x ==> s[i] in r
  {
    Filter(s, NotEqual(x))
  }

  /** `s.includes(x) ? s.filter(y => y !== x) : [...s, x]`. */
  function Toggle<T(==)>(s: seq<T>, x: T): (r: seq<T>)
    ensures x in r <==> x !in s
    ensures forall i :: 0 <= i < |r| && r[i] != x ==> r[i] in s
    ensures forall i :: 0 <= i < |s| && s[i] != x ==> s[i] in r
  {
    if x in s then Without(s, x) else s + [x]
  }

  /** Selecting a value that was not selected and then deselecting it restores the list. */
  lemma {:induction false} ToggleTwice<T>(s: seq<T>, x: T)
    requires x !in s
    ensures Toggle(Toggle(s, x), x) == s
  {
    assert Toggle(s, x) == s + [x];
    FilterAppend(s, [x], NotEqual(x));
    FilterKeepsAll(s, NotEqual(x));
    assert Filter([x], NotEqual(x)) == [];
  }

  /** A toggle never introduces a duplicate. */
  lemma {:induction false} ToggleNoDup<T>(s: seq<T>, x: T)
    requires NoDup(s)
    ensures NoDup(Toggle(s, x))
  {
    if x in s {
      FilterNoDup(s, NotEqual(x));
    }
  }

  /** The selection after toggling each value of `xs` in turn, starting from `s`. */
  function ToggleAll<T(==)>(s: seq<T>, xs: seq<T>): seq<T>
    decreases |xs|
  {
    if xs == [] then s else ToggleAll(Toggle(s, xs[0]), xs[1..])
  }

  /** A selection built only by toggles, starting without duplicates, stays without duplicates. */
  lemma {:induction false} ToggleAllNoDup<T>(s: seq<T>, xs: seq<T>)
    requires NoDup(s)
    ensures NoDup(ToggleAll(s, xs))
    decreases |xs|
  {
    if xs != [] {
      ToggleNoDup(s, xs[0]);
      ToggleAllNoDup(Toggle(s, xs[0]), xs[1..]);
    }
  }

  /** `ss.flat()`: the lists of `ss` concatenated in order. */
  function Flatten<T>(ss: seq<seq<T>>): (r: seq<T>)
    ensures forall i, x :: 0 <= i < |ss| && x in ss[i] ==> x in r
    ensures forall k :: 0 <= k < |r| ==> exists i :: 0 <= i < |ss| && r[k] in ss[i]
  {
    if ss == [] then []
    else
      assert forall i :: 0 < i < |ss| ==> ss[i] == ss[1..][i - 1];
      ss[0] + Flatten(ss[1..])
  }

  /** An element is in the flattened list exactly when it is in one of the lists. */
  lemma {:induction false} FlattenMember<T>(ss: seq<seq<T>>, x: T)
    ensures x in Flatten(ss) <==> exists i :: 0 <= i < |ss| && x in ss[i]
  {
    if ss != [] {
      FlattenMember(ss[1..], x);
      if x in Flatten(ss[1..]) {
        var i :| 0 <= i < |ss[1..]| && x in ss[1..][i];
        assert x in ss[i + 1];
      }
      if exists i :: 0 <= i < |ss| && x in ss[i] {
        var i :| 0 <= i < |ss| && x in ss[i];
        if i > 0 {
          assert x in ss[1..][i - 1];
        }
      }
    }
  }

  /** The de-duplicated list holds exactly the elements of the list. */
  lemma DedupMember<T>(s: seq<T>, x: T)
    ensures x in Dedup(s) <==> x in s
  {
    if x in Dedup(s) {
      var k :| 0 <= k < |Dedup(s)| && Dedup(s)[k] == x;
    }
    if x in s {
      var k :| 0 <= k < |s| && s[k] == x;
    }
  }

  /** The position of the first occurrence of `x` in `s`. */
  function FirstIndex<T(==)>(s: seq<T>, x: T): (k: nat)
    requires x in s
    ensures k < |s| && s[k] == x && x !in s[..k]
  {
    if s[0] == x then 0 else 1 + FirstIndex(s[1..], x)
  }

  /** `Array.from(new Set(s))`: each distinct element once, in order of first appearance. */
  function Dedup<T(==)>(s: seq<T>): (r: seq<T>)
    ensures NoDup(r)
    ensures forall i :: 0 <= i < |r| ==> r[i] in s
    ensures forall i :: 0 <= i < |s| ==> s[i] in r
    ensures forall i, j :: 0 <= i < j < |r| ==> FirstIndex(s, r[i]) < FirstIndex(s, r[j])
  {
    if s == [] then []
    else
      var init, last := s[..|s| - 1], s[|s| - 1];
      assert s == init + [last];
      var d := Dedup(init);
      FirstIndexPrefix(init, last);
      if last in d then d else d + [last]
  }

  /** Appending to a list does not move the first occurrence of an element already in it. */
  lemma FirstIndexPrefix<T>(init: seq<T>, last: T)
    ensures forall y :: y in init ==> FirstIndex(init + [last], y) == FirstIndex(init, y)
    ensures last !in init ==> FirstIndex(init + [last], last) == |init|
  {
    var s := init + [last];
    forall y | y in init ensures FirstIndex(s, y) == FirstIndex(init, y) {
      var k := FirstIndex(init, y);
      assert s[..k] == init[..k];
      FirstIndexUnique(s, y, k);
    }
    if last !in init {
      assert s[..|init|] == init;
      FirstIndexUnique(s, last, |init|);
    }
  }

  /** A position holding `x` with no `x` before it is the first index of `x`. */
  lemma FirstIndexUnique<T>(s: seq<T>, x: T, k: nat)
    requires k < |s| && s[k] == x && x !in s[..k]
    ensures FirstIndex(s, x) == k
  {
    if k > 0 {
      assert s[0] == s[..k][0];
      assert s[1..][..k - 1] == s[1..k];
      FirstIndexUnique(s[1..], x, k - 1);
    }
  }
}
