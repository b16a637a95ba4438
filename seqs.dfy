/**
 * Sequence helpers shared by the graph model: occurrence counts, the
 * `filter(v => v !== x)` of JavaScript arrays, filtering against a visited
 * set, distinctness, and the top-first view of an array used as a stack.
 */
module Seqs {

  /** The set of elements of a sequence. */
  ghost function Elems<T>(s: seq<T>): set<T>
  {
    set x | x in s
  }

  lemma ElemsAppend<T>(a: seq<T>, b: seq<T>)
    ensures Elems(a + b) == Elems(a) + Elems(b)
  {
  }

  /** No element occurs twice. */
  ghost predicate Distinct<T>(s: seq<T>)
  {
    forall i, j :: 0 <= i < j < |s| ==> s[i] != s[j]
  }

  /** Number of occurrences of `x` in `s`. */
  function Count<T(==)>(s: seq<T>, x: T): nat
  {
    multiset(s)[x]
  }

  /** `a` is obtained from `b` by deleting elements (order kept). */
  ghost predicate IsSubsequence<T>(a: seq<T>, b: seq<T>)
    decreases |b|
  {
    if a == [] then true
    else if b == [] then false
    else if a[0] == b[0] then IsSubsequence(a[1..], b[1..])
    else IsSubsequence(a, b[1..])
  }

  /**
   * `s.filter(v => v !== x)`: every occurrence of `x` is dropped, every
   * other element keeps its multiplicity.
   */
  function RemoveAll<T(==)>(s: seq<T>, x: T): (r: seq<T>)
    ensures multiset(r) == multiset(s)[x := 0]
    ensures |r| == |s| - Count(s, x)
  {
    if s == [] then []
    else if s[0] == x then
      assert s == [s[0]] + s[1..];
      RemoveAll(s[1..], x)
    else
      assert s == [s[0]] + s[1..];
      [s[0]] + RemoveAll(s[1..], x)
  }

  /** The elements of `s` that are not in `vis`, in their order in `s`. */
  function Unvisited<T(==,!new)>(s: seq<T>, vis: set<T>): (r: seq<T>)
    ensures forall y :: y in r <==> y in s && y !in vis
    ensures |r| <= |s|
  {
    if s == [] then []
    else if s[0] in vis then Unvisited(s[1..], vis)
    else [s[0]] + Unvisited(s[1..], vis)
  }

  /**
   * The top-first view of a JavaScript array used as a stack: `push`
   * appends at the end and `pop` takes the last element.
   */
  function Reverse<T>(s: seq<T>): (r: seq<T>)
    ensures |r| == |s|
  {
    if s == [] then [] else [s[|s| - 1]] + Reverse(s[..|s| - 1])
  }

  lemma ReverseSnoc<T>(s: seq<T>, x: T)
    ensures Reverse(s + [x]) == [x] + Reverse(s)
  {
    assert (s + [x])[..|s|] == s;
  }

  lemma {:induction false} RemoveAllKeepsOrder<T>(s: seq<T>, x: T)
    ensures IsSubsequence(RemoveAll(s, x), s)
  {
    if s != [] {
      RemoveAllKeepsOrder(s[1..], x);
      if s[0] != x {
        assert RemoveAll(s, x)[1..] == RemoveAll(s[1..], x);
      } else {
        SubsequenceOfTail(RemoveAll(s[1..], x), s);
      }
    }
  }

  /** A subsequence of the tail is a subsequence of the whole. */
  lemma {:induction false} SubsequenceOfTail<T>(a: seq<T>, b: seq<T>)
    requires b != [] && IsSubsequence(a, b[1..])
    ensures IsSubsequence(a, b)
    decreases |b|, |a|
  {
    if a != [] && a[0] == b[0] {
      SubsequenceDropHead(a, b[1..]);
    }
  }

  /** Dropping the head of a subsequence keeps it a subsequence. */
  lemma {:induction false} SubsequenceDropHead<T>(a: seq<T>, b: seq<T>)
    requires a != [] && IsSubsequence(a, b)
    ensures IsSubsequence(a[1..], b)
    decreases |b|, |a|
  {
    if a[0] == b[0] {
      SubsequenceOfTail(a[1..], b);
    } else {
      SubsequenceDropHead(a, b[1..]);
      SubsequenceOfTail(a[1..], b);
    }
  }

  lemma {:induction false} RemoveAllAbsent<T>(s: seq<T>, x: T)
    requires x !in s
    ensures RemoveAll(s, x) == s
  {
    if s != [] {
      RemoveAllAbsent(s[1..], x);
      assert s == [s[0]] + s[1..];
    }
  }

  lemma {:induction false} RemoveAllDistinct<T>(s: seq<T>, x: T)
    requires Distinct(s)
    ensures Distinct(RemoveAll(s, x))
  {
    if s != [] {
      RemoveAllDistinct(s[1..], x);
      var t := RemoveAll(s[1..], x);
      if s[0] != x {
        assert s[0] !in multiset(s[1..]);
        assert s[0] !in multiset(t);
        forall i, j | 0 <= i < j < |[s[0]] + t| ensures ([s[0]] + t)[i] != ([s[0]] + t)[j] {
          if i == 0 {
            assert ([s[0]] + t)[j] == t[j - 1];
            assert t[j - 1] in multiset(t);
          }
        }
      }
    }
  }

  /** `Unvisited` of a suffix, one element at a time. */
  lemma UnvisitedFrom<T(!new)>(s: seq<T>, i: nat, vis: set<T>)
    requires i < |s|
    ensures Unvisited(s[i..], vis) == (if s[i] in vis then [] else [s[i]]) + Unvisited(s[i + 1..], vis)
  {
    assert s[i..][0] == s[i] && s[i..][1..] == s[i + 1..];
  }

  lemma {:induction false} UnvisitedAppend<T(!new)>(a: seq<T>, b: seq<T>, vis: set<T>)
    ensures Unvisited(a + b, vis) == Unvisited(a, vis) + Unvisited(b, vis)
  {
    if a != [] {
      var ab := a + b;
      assert ab[0] == a[0] && ab[1..] == a[1..] + b;
      UnvisitedAppend(a[1..], b, vis);
      if a[0] !in vis {
        calc {
          Unvisited(ab, vis);
          [a[0]] + Unvisited(a[1..] + b, vis);
          [a[0]] + (Unvisited(a[1..], vis) + Unvisited(b, vis));
          ([a[0]] + Unvisited(a[1..], vis)) + Unvisited(b, vis);
        }
      }
    } else {
      assert a + b == b;
    }
  }

  /** Filtering by a smaller visited set first changes nothing. */
  lemma {:induction false} UnvisitedTwice<T(!new)>(s: seq<T>, vis: set<T>, more: set<T>)
    requires vis <= more
    ensures Unvisited(Unvisited(s, vis), more) == Unvisited(s, more)
  {
    if s != [] {
      UnvisitedTwice(s[1..], vis, more);
    }
  }

  lemma {:induction false} DistinctCard<T>(s: seq<T>)
    requires Distinct(s)
    ensures |Elems(s)| == |s|
  {
    if s != [] {
      var t := s[..|s| - 1];
      assert s == t + [s[|s| - 1]];
      DistinctCard(t);
      assert Elems(s) == Elems(t) + {s[|s| - 1]};
      assert s[|s| - 1] !in Elems(t);
    }
  }

  lemma DistinctAppend<T>(a: seq<T>, b: seq<T>)
    requires Distinct(a) && Distinct(b) && Elems(a) !! Elems(b)
    ensures Distinct(a + b) && Elems(a + b) == Elems(a) + Elems(b)
  {
    forall i, j | 0 <= i < j < |a + b| ensures (a + b)[i] != (a + b)[j] {
      if i < |a| && |a| <= j {
        assert (a + b)[i] in Elems(a) && (a + b)[j] in Elems(b);
      }
    }
  }
}
