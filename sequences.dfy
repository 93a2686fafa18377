/**
 * The collection operations the core relies on: `map`, `select`/`reject` and
 * one sort for every `sort_by` / `sort_by!`, an insertion sort under a total
 * preorder `le`. Ruby's sort is not stable, so only what every admissible
 * result shares is used about it: it is a permutation of its input and it is
 * ordered by `le`.
 */
module Sequences {
  import opened Wrappers

  ghost predicate TotalPreorder<T(!new)>(le: (T, T) -> bool) {
    && (forall a, b :: le(a, b) || le(b, a))
    && (forall a, b, c :: le(a, b) && le(b, c) ==> le(a, c))
  }

  /** `map`: `f` applied to every element, in order. */
  function MapSeq<A, B>(s: seq<A>, f: A -> B): (r: seq<B>)
    ensures |r| == |s|
  {
    if s == [] then [] else [f(s[0])] + MapSeq(s[1..], f)
  }

  lemma {:induction false} MapSeqAt<A, B>(s: seq<A>, f: A -> B)
    ensures forall i :: 0 <= i < |s| ==> MapSeq(s, f)[i] == f(s[i])
  {
    if s != [] {
      MapSeqAt(s[1..], f);
    }
  }

  lemma {:induction false} MapSeqAppend<A, B>(a: seq<A>, b: seq<A>, f: A -> B)
    ensures MapSeq(a + b, f) == MapSeq(a, f) + MapSeq(b, f)
  {
    if a == [] {
      assert a + b == b;
    } else {
      assert (a + b)[1..] == a[1..] + b;
      MapSeqAppend(a[1..], b, f);
    }
  }

  lemma MapSeqSingle<A, B>(x: A, f: A -> B)
    ensures MapSeq([x], f) == [f(x)]
  {
    assert [x][1..] == [];
  }

  lemma MapSeqMiddle<A, B>(a: seq<A>, x: A, b: seq<A>, f: A -> B)
    ensures MapSeq(a + [x] + b, f) == MapSeq(a, f) + [f(x)] + MapSeq(b, f)
  {
    MapSeqAppend(a + [x], b, f);
    MapSeqAppend(a, [x], f);
    MapSeqSingle(x, f);
  }

  lemma MapSeqRemove<A, B>(a: seq<A>, x: A, b: seq<A>, f: A -> B)
    ensures multiset(MapSeq(a + [x] + b, f)) == multiset(MapSeq(a + b, f)) + multiset{f(x)}
  {
    MapSeqMiddle(a, x, b, f);
    MapSeqAppend(a, b, f);
    MultisetWithout(MapSeq(a, f), f(x), MapSeq(b, f));
  }

  lemma MultisetWithout<B>(p: seq<B>, y: B, q: seq<B>)
    ensures multiset(p + [y] + q) == multiset(p + q) + multiset{y}
  {
  }

  lemma MultisetCancel<B>(m: multiset<B>, n: multiset<B>, y: B)
    requires m + multiset{y} == n + multiset{y}
    ensures m == n
  {
    assert m == (m + multiset{y}) - multiset{y};
    assert n == (n + multiset{y}) - multiset{y};
  }

  lemma MultisetCons<A>(s: seq<A>)
    requires s != []
    ensures multiset(s) == multiset(s[1..]) + multiset{s[0]}
  {
    assert s == [s[0]] + s[1..];
  }

  lemma Decompose<A>(t: seq<A>, x: A) returns (a: seq<A>, b: seq<A>)
    requires x in multiset(t)
    ensures t == a + [x] + b
  {
    var j :| 0 <= j < |t| && t[j] == x;
    a, b := t[..j], t[j + 1..];
    assert t == a + [x] + b;
  }

  /** Mapping a permutation gives a permutation of the mapped sequence. */
  lemma {:induction false} MapPermutation<A, B>(s: seq<A>, t: seq<A>, f: A -> B)
    requires multiset(s) == multiset(t)
    ensures multiset(MapSeq(s, f)) == multiset(MapSeq(t, f))
  {
    if s != [] {
      var x := s[0];
      assert x in multiset(t);
      var a, b := Decompose(t, x);
      MultisetWithout(a, x, b);
      MultisetCons(s);
      MultisetCancel(multiset(s[1..]), multiset(a + b), x);
      MapPermutation(s[1..], a + b, f);
      MapSeqRemove(a, x, b, f);
      MultisetCons(MapSeq(s, f));
    }
  }

  /** `flat_map`: the results of `f` on every element, concatenated in order. */
  function ConcatMap<A, B>(s: seq<A>, f: A -> seq<B>): seq<B> {
    if s == [] then [] else f(s[0]) + ConcatMap(s[1..], f)
  }

  lemma {:induction false} ConcatMapSnoc<A, B>(s: seq<A>, x: A, f: A -> seq<B>)
    ensures ConcatMap(s + [x], f) == ConcatMap(s, f) + f(x)
  {
    if s == [] {
      assert [x][1..] == [];
    } else {
      assert (s + [x])[1..] == s[1..] + [x];
      ConcatMapSnoc(s[1..], x, f);
    }
  }

  /** `find` passed over the first `n` elements of `s`: none was taken and none raised. */
  predicate PassedBefore<T>(s: seq<T>, n: nat, take: T -> bool, skip: T -> bool) {
    forall j :: 0 <= j < n && j < |s| ==> !take(s[j]) && skip(s[j])
  }

  lemma PassedBeforeCons<T>(s: seq<T>, n: nat, take: T -> bool, skip: T -> bool)
    requires s != [] && !take(s[0]) && skip(s[0]) && PassedBefore(s[1..], n, take, skip)
    ensures PassedBefore(s, n + 1, take, skip)
  {
    forall j | 0 < j < n + 1 && j < |s| ensures !take(s[j]) && skip(s[j]) {
      assert s[j] == s[1..][j - 1];
    }
  }

  /**
   * `find` with a block that may raise: the first element `take` accepts;
   * an earlier element that `skip` does not pass over raises.
   */
  function FindFirst<T>(s: seq<T>, take: T -> bool, skip: T -> bool): Result<Option<T>> {
    if s == [] then Ok(None)
    else if take(s[0]) then Ok(Some(s[0]))
    else if !skip(s[0]) then Err("find block raised")
    else FindFirst(s[1..], take, skip)
  }

  /** Nothing is found exactly when every element is passed over. */
  lemma {:induction false} FindFirstNone<T>(s: seq<T>, take: T -> bool, skip: T -> bool)
    ensures FindFirst(s, take, skip) == Ok(None) <==> PassedBefore(s, |s|, take, skip)
  {
    if s != [] {
      FindFirstNone(s[1..], take, skip);
      if !take(s[0]) && skip(s[0]) && PassedBefore(s[1..], |s| - 1, take, skip) {
        PassedBeforeCons(s, |s| - 1, take, skip);
      }
      if PassedBefore(s, |s|, take, skip) {
        forall j | 0 <= j < |s| - 1 ensures !take(s[1..][j]) && skip(s[1..][j]) {
          assert s[1..][j] == s[j + 1];
        }
      }
    }
  }

  /** What is found is the first element taken, and everything before it was passed over. */
  lemma {:induction false} FindFirstSome<T>(s: seq<T>, take: T -> bool, skip: T -> bool, x: T)
    requires FindFirst(s, take, skip) == Ok(Some(x))
    ensures exists i :: 0 <= i < |s| && s[i] == x && take(x) && PassedBefore(s, i, take, skip)
  {
    if take(s[0]) {
      assert PassedBefore(s, 0, take, skip);
    } else {
      var t := s[1..];
      FindFirstSome(t, take, skip, x);
      var i :| 0 <= i < |t| && t[i] == x && take(x) && PassedBefore(t, i, take, skip);
      PassedBeforeCons(s, i, take, skip);
      assert s[i + 1] == t[i];
    }
  }

  /** `find` raises at the first element neither taken nor passed over. */
  lemma {:induction false} FindFirstRaises<T>(s: seq<T>, take: T -> bool, skip: T -> bool)
    requires FindFirst(s, take, skip).Err?
    ensures exists i :: 0 <= i < |s| && !take(s[i]) && !skip(s[i]) && PassedBefore(s, i, take, skip)
  {
    if !take(s[0]) && skip(s[0]) {
      var t := s[1..];
      FindFirstRaises(t, take, skip);
      var i :| 0 <= i < |t| && !take(t[i]) && !skip(t[i]) && PassedBefore(t, i, take, skip);
      PassedBeforeCons(s, i, take, skip);
      assert s[i + 1] == t[i];
    } else {
      assert PassedBefore(s, 0, take, skip);
    }
  }

  /** The three outcomes of `find`, together. */
  lemma FindFirstOutcomes<T>(s: seq<T>, take: T -> bool, skip: T -> bool)
    ensures FindFirst(s, take, skip) == Ok(None) <==> PassedBefore(s, |s|, take, skip)
    ensures FindFirst(s, take, skip).Ok? && FindFirst(s, take, skip).value.Some? ==>
              exists i :: 0 <= i < |s| && s[i] == FindFirst(s, take, skip).value.value && take(s[i]) && PassedBefore(s, i, take, skip)
    ensures FindFirst(s, take, skip).Err? ==>
              exists i :: 0 <= i < |s| && !take(s[i]) && !skip(s[i]) && PassedBefore(s, i, take, skip)
  {
    var r := FindFirst(s, take, skip);
    FindFirstNone(s, take, skip);
    if r.Ok? && r.value.Some? {
      FindFirstSome(s, take, skip, r.value.value);
    }
    if r.Err? {
      FindFirstRaises(s, take, skip);
    }
  }

  /** `select(&p)`: the elements satisfying `p`, in order. */
  function Filter<T>(s: seq<T>, p: T -> bool): (r: seq<T>)
    ensures |r| <= |s|
    ensures forall i :: 0 <= i < |r| ==> r[i] in s && p(r[i])
    ensures forall i :: 0 <= i < |s| && p(s[i]) ==> s[i] in r
  {
    if s == [] then [] else (if p(s[0]) then [s[0]] else []) + Filter(s[1..], p)
  }

  /** Filtering distributes over concatenation, so the kept elements stay in their order. */
  lemma {:induction false} FilterAppend<T>(a: seq<T>, b: seq<T>, p: T -> bool)
    ensures Filter(a + b, p) == Filter(a, p) + Filter(b, p)
  {
    if a == [] {
      assert a + b == b;
    } else {
      assert (a + b)[0] == a[0];
      assert (a + b)[1..] == a[1..] + b;
      FilterAppend(a[1..], b, p);
    }
  }

  /** A sequence whose elements all pass is kept whole; in particular filtering twice is filtering once. */
  lemma {:induction false} FilterAll<T>(s: seq<T>, p: T -> bool)
    requires forall i :: 0 <= i < |s| ==> p(s[i])
    ensures Filter(s, p) == s
  {
    if s != [] {
      assert p(s[0]);
      FilterAll(s[1..], p);
    }
  }

  /** `compact` on a list of optional values: the present ones, in order. */
  function Somes<T>(s: seq<Option<T>>): (r: seq<T>)
    ensures |r| <= |s|
    ensures forall i :: 0 <= i < |r| ==> Some(r[i]) in s
    ensures forall i :: 0 <= i < |s| && s[i].Some? ==> s[i].value in r
  {
    if s == [] then [] else (if s[0].Some? then [s[0].value] else []) + Somes(s[1..])
  }

  /** The values a partial map produces over `s` are exactly its values at the positions of `s` where it is defined. */
  lemma SomesMapSeq<A, B>(s: seq<A>, f: A -> Option<B>)
    ensures forall i :: 0 <= i < |Somes(MapSeq(s, f))| ==>
              exists j :: 0 <= j < |s| && f(s[j]) == Some(Somes(MapSeq(s, f))[i])
    ensures forall j :: 0 <= j < |s| && f(s[j]).Some? ==> f(s[j]).value in Somes(MapSeq(s, f))
  {
    var m := MapSeq(s, f);
    MapSeqAt(s, f);
    forall i | 0 <= i < |Somes(m)| ensures exists j :: 0 <= j < |s| && f(s[j]) == Some(Somes(m)[i]) {
      var j :| 0 <= j < |m| && m[j] == Some(Somes(m)[i]);
      assert f(s[j]) == Some(Somes(m)[i]);
    }
    forall j | 0 <= j < |s| && f(s[j]).Some? ensures f(s[j]).value in Somes(m) {
      assert m[j].Some?;
    }
  }

  lemma {:induction false} SomesAppend<T>(a: seq<Option<T>>, b: seq<Option<T>>)
    ensures Somes(a + b) == Somes(a) + Somes(b)
  {
    if a == [] {
      assert a + b == b;
    } else {
      assert (a + b)[0] == a[0];
      assert (a + b)[1..] == a[1..] + b;
      SomesAppend(a[1..], b);
    }
  }

  ghost predicate SortedBy<T>(s: seq<T>, le: (T, T) -> bool) {
    forall i, j :: 0 <= i < j < |s| ==> le(s[i], s[j])
  }

  function Insert<T>(x: T, s: seq<T>, le: (T, T) -> bool): (r: seq<T>)
    ensures multiset(r) == multiset(s) + multiset{x}
  {
    if s == [] || le(x, s[0]) then [x] + s
    else
      assert s == [s[0]] + s[1..];
      [s[0]] + Insert(x, s[1..], le)
  }

  /** The sorted permutation of `s`. */
  function SortBy<T>(s: seq<T>, le: (T, T) -> bool): (r: seq<T>)
    ensures multiset(r) == multiset(s)
  {
    if s == [] then []
    else
      assert s == [s[0]] + s[1..];
      Insert(s[0], SortBy(s[1..], le), le)
  }

  /** A sorted sequence stays sorted under a new head that is below all of it. */
  lemma SortedCons<T>(y: T, rest: seq<T>, le: (T, T) -> bool)
    requires SortedBy(rest, le)
    requires forall k :: 0 <= k < |rest| ==> le(y, rest[k])
    ensures SortedBy([y] + rest, le)
  {
    var r := [y] + rest;
    forall i, j | 0 <= i < j < |r| ensures le(r[i], r[j]) {
      assert r[j] == rest[j - 1];
      if i > 0 {
        assert r[i] == rest[i - 1];
      }
    }
  }

  /** The head of a sorted sequence is below every element. */
  lemma SortedHeadBelow<T>(s: seq<T>, le: (T, T) -> bool, y: T)
    requires SortedBy(s, le) && s != [] && y in multiset(s)
    requires forall a :: le(a, a)
    ensures le(s[0], y)
  {
    var k :| 0 <= k < |s| && s[k] == y;
    if k > 0 {
      assert le(s[0], s[k]);
    }
  }

  lemma {:induction false} InsertSorted<T(!new)>(x: T, s: seq<T>, le: (T, T) -> bool)
    requires TotalPreorder(le) && SortedBy(s, le)
    ensures SortedBy(Insert(x, s, le), le)
  {
    if s == [] || le(x, s[0]) {
      forall k | 0 <= k < |s| ensures le(x, s[k]) {
        if k > 0 {
          assert le(s[0], s[k]);
        }
      }
      SortedCons(x, s, le);
    } else {
      var rest := Insert(x, s[1..], le);
      InsertSorted(x, s[1..], le);
      assert le(s[0], x);
      forall k | 0 <= k < |rest| ensures le(s[0], rest[k]) {
        var y := rest[k];
        assert y in multiset(rest);
        if y != x {
          assert y in multiset(s[1..]);
          assert multiset(s) == multiset(s[1..]) + multiset{s[0]} by { MultisetCons(s); }
          SortedHeadBelow(s, le, y);
        }
      }
      SortedCons(s[0], rest, le);
    }
  }

  lemma {:induction false} SortBySorted<T(!new)>(s: seq<T>, le: (T, T) -> bool)
    requires TotalPreorder(le)
    ensures SortedBy(SortBy(s, le), le)
  {
    if s != [] {
      SortBySorted(s[1..], le);
      InsertSorted(s[0], SortBy(s[1..], le), le);
    }
  }

  /** `le` holds both ways only between equal elements of `m`. */
  ghost predicate AntisymmetricOn<T>(m: multiset<T>, le: (T, T) -> bool) {
    forall a, b :: a in m && b in m && le(a, b) && le(b, a) ==> a == b
  }

  lemma AntisymmetricOnSub<T>(m: multiset<T>, n: multiset<T>, le: (T, T) -> bool)
    requires AntisymmetricOn(m, le) && n <= m
    ensures AntisymmetricOn(n, le)
  {
  }

  /** Two sorted sequences with the same elements start with the same element. */
  lemma SortedHeadsEqual<T>(s: seq<T>, t: seq<T>, le: (T, T) -> bool)
    requires SortedBy(s, le) && SortedBy(t, le) && s != []
    requires multiset(s) == multiset(t) && AntisymmetricOn(multiset(s), le)
    ensures t != [] && s[0] == t[0]
  {
    assert s[0] in multiset(t);
    var j :| 0 <= j < |t| && t[j] == s[0];
    assert t[0] in multiset(s);
    var i :| 0 <= i < |s| && s[i] == t[0];
    if i > 0 && j > 0 {
      assert le(t[0], t[j]) && le(s[0], s[i]);
    }
  }

  lemma SortedTail<T>(s: seq<T>, le: (T, T) -> bool)
    requires SortedBy(s, le) && s != []
    ensures SortedBy(s[1..], le)
  {
    forall i, j | 0 <= i < j < |s[1..]| ensures le(s[1..][i], s[1..][j]) {
      assert s[1..][i] == s[i + 1] && s[1..][j] == s[j + 1];
    }
  }

  lemma ConsEqual<T>(s: seq<T>, t: seq<T>)
    requires s != [] && t != [] && s[0] == t[0] && s[1..] == t[1..]
    ensures s == t
  {
    assert s == [s[0]] + s[1..];
    assert t == [t[0]] + t[1..];
  }

  /**
   * Two sequences ordered by `le` with the same elements are equal, as long as
   * `le` cannot hold both ways between two distinct elements: every admissible
   * sort of such a collection gives the same sequence.
   */
  lemma {:induction false} SortedPermutationsEqual<T>(s: seq<T>, t: seq<T>, le: (T, T) -> bool)
    requires SortedBy(s, le) && SortedBy(t, le)
    requires multiset(s) == multiset(t)
    requires AntisymmetricOn(multiset(s), le)
    ensures s == t
  {
    if s != [] {
      SortedHeadsEqual(s, t, le);
      MultisetCons(s);
      MultisetCons(t);
      MultisetCancel(multiset(s[1..]), multiset(t[1..]), s[0]);
      AntisymmetricOnSub(multiset(s), multiset(s[1..]), le);
      SortedTail(s, le);
      SortedTail(t, le);
      SortedPermutationsEqual(s[1..], t[1..], le);
      ConsEqual(s, t);
    }
  }
}
