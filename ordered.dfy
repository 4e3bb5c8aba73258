/** Insertion-ordered sets: what `Array.from(new Set(xs))` gives, each value once,
    in the order of its first occurrence in `xs`. */
module Ordered {

  predicate Distinct<T(==, !new)>(s: seq<T>)
  {
    forall i, j :: 0 <= i < j < |s| ==> s[i] != s[j]
  }

  /** `set.add(x)` on an insertion-ordered set. */
  function AddNew<T(==, !new)>(acc: seq<T>, x: T): (r: seq<T>)
    ensures x in r
    ensures forall y :: y in r <==> y in acc || y == x
  {
    if x in acc then acc else acc + [x]
  }

  /** The distinct values of `s` in order of first occurrence. */
  function Dedup<T(==, !new)>(s: seq<T>): (r: seq<T>)
    ensures Distinct(r)
    ensures forall x :: x in r <==> x in s
    ensures |r| <= |s|
  {
    if s == [] then []
    else
      var prev := Dedup(s[..|s| - 1]);
      assert forall x :: x in s <==> x in s[..|s| - 1] || x == s[|s| - 1] by {
        assert s == s[..|s| - 1] + [s[|s| - 1]];
      }
      AddNew(prev, s[|s| - 1])
  }

  lemma DedupSnoc<T(!new)>(s: seq<T>, x: T)
    ensures Dedup(s + [x]) == AddNew(Dedup(s), x)
  {
    assert (s + [x])[..|s|] == s;
  }

  /** `[x]` when `b` holds, else nothing: one conditional push. */
  function When<T>(b: bool, x: T): (r: seq<T>)
    ensures |r| <= 1 && (x in r <==> b)
  {
    if b then [x] else []
  }

  /** `s.push(x)` when `b` holds. */
  method PushWhen<T>(s: seq<T>, b: bool, x: T) returns (out: seq<T>)
    ensures out == s + When(b, x)
  {
    out := s;
    if b {
      out := out + [x];
    } else {
      assert s + When(b, x) == s;
    }
  }

  /** A conditional push after the values of `s` adds `x` to their distinct
      values when it happens. */
  lemma DedupWhen<T(!new)>(s: seq<T>, b: bool, x: T)
    ensures Dedup(s + When(b, x)) == if b then AddNew(Dedup(s), x) else Dedup(s)
  {
    if b {
      DedupSnoc(s, x);
    } else {
      assert s + When(b, x) == s;
    }
  }

  /** Concatenation is associative; stated for the chains of conditional
      pushes. */
  lemma AppendFour<T>(s: seq<T>, a: seq<T>, b: seq<T>, c: seq<T>, d: seq<T>)
    ensures s + a + b + c + d == s + (a + b + c + d)
  {
  }

  lemma AppendFive<T>(s: seq<T>, a: seq<T>, b: seq<T>, c: seq<T>, d: seq<T>, e: seq<T>)
    ensures s + a + b + c + d + e == s + (a + b + c + d + e)
  {
  }

  /** Values that are already distinct are their own distinct values. */
  lemma {:induction false} DedupOfDistinct<T(!new)>(s: seq<T>)
    requires Distinct(s)
    ensures Dedup(s) == s
  {
    if s != [] {
      var init, x := s[..|s| - 1], s[|s| - 1];
      assert Distinct(init);
      DedupOfDistinct(init);
      assert Dedup(s) == AddNew(init, x);
      assert x !in init;
      assert s == init + [x];
    }
  }

  /** The position of the first occurrence of `x` in `s`. */
  function FirstIndex<T(==, !new)>(s: seq<T>, x: T): (i: nat)
    requires x in s
    ensures i < |s| && s[i] == x
    ensures forall k :: 0 <= k < i ==> s[k] != x
  {
    if s[0] == x then 0 else 1 + FirstIndex(s[1..], x)
  }

  lemma {:induction false} FirstIndexSnoc<T(!new)>(s: seq<T>, y: T, x: T)
    requires x in s
    ensures FirstIndex(s + [y], x) == FirstIndex(s, x)
  {
    if s[0] != x {
      assert (s + [y])[1..] == s[1..] + [y];
      FirstIndexSnoc(s[1..], y, x);
    }
  }

  /** `Dedup(s)` lists the values of `s` in the order of their first occurrences. */
  lemma {:induction false} DedupFirstOccurrenceOrder<T(!new)>(s: seq<T>, i: nat, j: nat)
    requires i < j < |Dedup(s)|
    ensures FirstIndex(s, Dedup(s)[i]) < FirstIndex(s, Dedup(s)[j])
  {
    var init, last := s[..|s| - 1], s[|s| - 1];
    assert s == init + [last];
    var prev := Dedup(init);
    var a, b := Dedup(s)[i], Dedup(s)[j];
    if last in prev {
      assert Dedup(s) == prev;
      DedupFirstOccurrenceOrder(init, i, j);
      FirstIndexSnoc(init, last, a);
      FirstIndexSnoc(init, last, b);
    } else if j < |prev| {
      DedupFirstOccurrenceOrder(init, i, j);
      FirstIndexSnoc(init, last, a);
      FirstIndexSnoc(init, last, b);
    } else {
      assert b == last && last !in init;
      assert a in init;
      FirstIndexSnoc(init, last, a);
      assert FirstIndex(s, b) == |init| by {
        assert s[|init|] == last;
        assert forall k :: 0 <= k < |init| ==> s[k] == init[k];
      }
    }
  }

  /** A sequence without repetitions drawn from a finite set is no longer
      than the set. */
  lemma {:induction false} DistinctBound<T(!new)>(r: seq<T>, universe: set<T>)
    requires Distinct(r)
    requires forall x :: x in r ==> x in universe
    ensures |r| <= |universe|
  {
    if r != [] {
      assert forall x :: x in r[1..] ==> x in universe - {r[0]} by {
        forall x | x in r[1..] ensures x in universe - {r[0]} {
          var k :| 0 <= k < |r[1..]| && r[1..][k] == x;
          assert r[k + 1] == x;
        }
      }
      DistinctBound(r[1..], universe - {r[0]});
    }
  }

  /** In a sequence without repetitions every value occurs at most once. */
  lemma {:induction false} DistinctAtMostOnce<T(!new)>(s: seq<T>, x: T)
    requires Distinct(s)
    ensures multiset(s)[x] <= 1
    ensures x in s ==> multiset(s)[x] == 1
  {
    if s != [] {
      var init, last := s[..|s| - 1], s[|s| - 1];
      assert s == init + [last];
      assert Distinct(init);
      DistinctAtMostOnce(init, x);
      if x == last {
        assert x !in init;
      }
    }
  }

  /** A sequence in which no value occurs twice has no repetitions. */
  lemma AtMostOnceDistinct<T(!new)>(s: seq<T>)
    requires forall x :: multiset(s)[x] <= 1
    ensures Distinct(s)
  {
    forall i, j | 0 <= i < j < |s| ensures s[i] != s[j] {
      assert s == s[..j] + s[j..];
      assert multiset(s) == multiset(s[..j]) + multiset(s[j..]);
      assert s[i] in multiset(s[..j]) && s[j] in multiset(s[j..]);
      assert multiset(s)[s[i]] <= 1;
      assert multiset(s)[s[i]] >= 1 + multiset(s[j..])[s[i]];
    }
  }

  /** A reordering of a sequence without repetitions has none either. */
  lemma PermutationDistinct<T(!new)>(a: seq<T>, b: seq<T>)
    requires Distinct(a) && multiset(a) == multiset(b)
    ensures Distinct(b)
  {
    forall x ensures multiset(b)[x] <= 1 {
      DistinctAtMostOnce(a, x);
    }
    AtMostOnceDistinct(b);
  }

  /** The concatenation of `f(x)` over the elements `x` of `xs`, in order. */
  function FlatMap<A, T>(xs: seq<A>, f: A -> seq<T>): seq<T>
  {
    if xs == [] then [] else FlatMap(xs[..|xs| - 1], f) + f(xs[|xs| - 1])
  }

  lemma FlatMapSnoc<A, T>(xs: seq<A>, f: A -> seq<T>, i: nat)
    requires i < |xs|
    ensures FlatMap(xs[..i + 1], f) == FlatMap(xs[..i], f) + f(xs[i])
  {
    assert xs[..i + 1][..i] == xs[..i];
  }

  /** A value is in the concatenation exactly when it is in one of the
      pieces. */
  lemma {:induction false} FlatMapIff<A, T>(xs: seq<A>, f: A -> seq<T>, t: T)
    ensures t in FlatMap(xs, f) <==> exists i :: 0 <= i < |xs| && t in f(xs[i])
  {
    if xs != [] {
      var init := xs[..|xs| - 1];
      FlatMapIff(init, f, t);
      if t in FlatMap(xs, f) {
        if t in FlatMap(init, f) {
          var i :| 0 <= i < |init| && t in f(init[i]);
          assert xs[i] == init[i];
        } else {
          assert t in f(xs[|xs| - 1]);
        }
      } else {
        forall i | 0 <= i < |xs| ensures t !in f(xs[i]) {
          if i < |init| {
            assert xs[i] == init[i];
          }
        }
      }
    }
  }

  /** Applies `f` to every element, keeping the order. */
  function Map<T, U>(s: seq<T>, f: T -> U): (r: seq<U>)
    ensures |r| == |s|
    ensures forall i :: 0 <= i < |s| ==> r[i] == f(s[i])
  {
    if s == [] then [] else [f(s[0])] + Map(s[1..], f)
  }
}
