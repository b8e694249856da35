/** `Array.prototype.filter` and the facts the components rely on: the
    result is the input with exactly the rejected entries dropped, in the
    same order. */
module Lists {

  /** `s.filter(keep)`. */
  function Filter<T>(s: seq<T>, keep: T -> bool): (r: seq<T>)
    ensures |r| <= |s|
    ensures forall i :: 0 <= i < |r| ==> keep(r[i])
  {
    if s == [] then []
    else
      var rest := Filter(s[1..], keep);
      if keep(s[0]) then [s[0]] + rest else rest
  }

  /** The filter keeps exactly the entries that pass the test. */
  lemma {:induction false} FilterMembers<T>(s: seq<T>, keep: T -> bool)
    ensures forall i :: 0 <= i < |Filter(s, keep)| ==> Filter(s, keep)[i] in s
    ensures forall i :: 0 <= i < |s| && keep(s[i]) ==> s[i] in Filter(s, keep)
  {
    if s != [] {
      FilterMembers(s[1..], keep);
      assert forall i :: 1 <= i < |s| ==> s[i] == s[1..][i - 1];
    }
  }

  /** The filter looks at the first entry and then at the rest. */
  lemma FilterCons<T>(x: T, s: seq<T>, keep: T -> bool)
    ensures Filter([x] + s, keep) == if keep(x) then [x] + Filter(s, keep) else Filter(s, keep)
  {
    assert ([x] + s)[1..] == s;
  }

  /** Filtering a concatenation filters each part. */
  lemma {:induction false} FilterAppend<T>(a: seq<T>, b: seq<T>, keep: T -> bool)
    ensures Filter(a + b, keep) == Filter(a, keep) + Filter(b, keep)
  {
    if a == [] {
      assert a + b == b;
    } else {
      var c := a + b;
      assert c[0] == a[0] && c[1..] == a[1..] + b;
      FilterAppend(a[1..], b, keep);
      calc {
        Filter(c, keep);
        (if keep(a[0]) then [a[0]] else []) + Filter(a[1..] + b, keep);
        (if keep(a[0]) then [a[0]] else []) + (Filter(a[1..], keep) + Filter(b, keep));
        ((if keep(a[0]) then [a[0]] else []) + Filter(a[1..], keep)) + Filter(b, keep);
        Filter(a, keep) + Filter(b, keep);
      }
    }
  }

  /** `a` is `b` with some entries dropped and the others kept in order. */
  ghost predicate IsSubsequence<T>(a: seq<T>, b: seq<T>)
    decreases |b|
  {
    if b == [] then a == []
    else IsSubsequence(a, b[1..]) || (a != [] && a[0] == b[0] && IsSubsequence(a[1..], b[1..]))
  }

  lemma {:induction false} FilterIsSubsequence<T>(s: seq<T>, keep: T -> bool)
    ensures IsSubsequence(Filter(s, keep), s)
  {
    if s != [] {
      FilterIsSubsequence(s[1..], keep);
      if keep(s[0]) {
        assert ([s[0]] + Filter(s[1..], keep))[1..] == Filter(s[1..], keep);
      }
    }
  }

  /** Every entry the filter keeps is kept as often as it occurs; every
      entry it rejects disappears. */
  lemma {:induction false} FilterCounts<T>(s: seq<T>, keep: T -> bool, x: T)
    ensures multiset(Filter(s, keep))[x] == if keep(x) then multiset(s)[x] else 0
  {
    if s != [] {
      FilterCounts(s[1..], keep, x);
      assert s == [s[0]] + s[1..];
      assert multiset(s) == multiset{s[0]} + multiset(s[1..]);
    }
  }

  /** A filter that rejects nothing returns its input unchanged. */
  lemma {:induction false} FilterKeepsAll<T>(s: seq<T>, keep: T -> bool)
    requires forall i :: 0 <= i < |s| ==> keep(s[i])
    ensures Filter(s, keep) == s
  {
    if s != [] {
      FilterKeepsAll(s[1..], keep);
      assert [s[0]] + s[1..] == s;
    }
  }

  /** Filtering twice with the same test is filtering once. */
  lemma {:induction false} FilterIdempotent<T>(s: seq<T>, keep: T -> bool)
    ensures Filter(Filter(s, keep), keep) == Filter(s, keep)
  {
    FilterKeepsAll(Filter(s, keep), keep);
  }

  /** The test of `list.filter(x => x.id !== id)`, for records whose id
      `idOf` reads. */
  function HasOtherId<T>(id: int, idOf: T -> int): T -> bool
  {
    (x: T) => idOf(x) != id
  }

  /** Removal by id, as both notification providers do it: no entry keeps
      the id, every other entry stays, and the order is kept. */
  function WithoutId<T>(s: seq<T>, id: int, idOf: T -> int): (r: seq<T>)
    ensures forall i :: 0 <= i < |r| ==> idOf(r[i]) != id
    ensures forall i :: 0 <= i < |s| && idOf(s[i]) != id ==> s[i] in r
    ensures IsSubsequence(r, s)
  {
    FilterIsSubsequence(s, HasOtherId(id, idOf));
    FilterMembers(s, HasOtherId(id, idOf));
    Filter(s, HasOtherId(id, idOf))
  }

  /** Removing an id that no entry carries changes nothing. */
  lemma WithoutAbsentId<T>(s: seq<T>, id: int, idOf: T -> int)
    requires forall i :: 0 <= i < |s| ==> idOf(s[i]) != id
    ensures WithoutId(s, id, idOf) == s
  {
    FilterKeepsAll(s, HasOtherId(id, idOf));
  }

  /** Removing the same id twice is removing it once. */
  lemma WithoutIdIdempotent<T>(s: seq<T>, id: int, idOf: T -> int)
    ensures WithoutId(WithoutId(s, id, idOf), id, idOf) == WithoutId(s, id, idOf)
  {
    WithoutAbsentId(WithoutId(s, id, idOf), id, idOf);
  }

  /** Removal drops exactly the entries with the id: every other entry is
      kept as often as it occurred. */
  lemma WithoutIdCounts<T>(s: seq<T>, id: int, idOf: T -> int, x: T)
    ensures multiset(WithoutId(s, id, idOf))[x] == if idOf(x) != id then multiset(s)[x] else 0
  {
    FilterCounts(s, HasOtherId(id, idOf), x);
  }
}
