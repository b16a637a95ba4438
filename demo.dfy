/**
 * The two graphs the program's test script builds, with the traversal
 * orders and counts it reports for them: an undirected graph on the
 * letters A to F and a directed graph on the numbers 1 to 6, each built
 * by seven `addEdge` calls on a fresh `Graph`.
 */
module Demo {
  import opened Ids
  import opened Seqs
  import opened Adjacency
  import opened Traversal
  import opened Graphs

  const A: Id := Str("A")
  const B: Id := Str("B")
  const C: Id := Str("C")
  const D: Id := Str("D")
  const E: Id := Str("E")
  const F: Id := Str("F")

  /** The Map after `addEdge` A-B, A-C, B-D, C-D, C-E, D-E, D-F on an undirected graph. */
  const Letters: map<Id, seq<Id>> :=
    map[A := [B, C], B := [A, D], C := [A, D, E], D := [B, C, E, F], E := [C, D], F := [D]]

  /** The Map after `addEdge` 1-2, 1-3, 2-4, 3-4, 3-5, 4-5, 5-6 on a directed graph. */
  const Numbers: map<Id, seq<Id>> :=
    map[Num(1) := [Num(2), Num(3)], Num(2) := [Num(4)], Num(3) := [Num(4), Num(5)],
        Num(4) := [Num(5)], Num(5) := [Num(6)], Num(6) := []]

  /** The neighbour lists of the letter graph, whatever else the map holds. */
  predicate LettersLists(adj: map<Id, seq<Id>>)
  {
    && A in adj && B in adj && C in adj && D in adj && E in adj && F in adj
    && adj[A] == [B, C] && adj[B] == [A, D] && adj[C] == [A, D, E]
    && adj[D] == [B, C, E, F] && adj[E] == [C, D] && adj[F] == [D]
  }

  /** The neighbour lists of the number graph. */
  predicate NumbersLists(adj: map<Id, seq<Id>>)
  {
    && Num(1) in adj && Num(2) in adj && Num(3) in adj && Num(4) in adj && Num(5) in adj && Num(6) in adj
    && adj[Num(1)] == [Num(2), Num(3)] && adj[Num(2)] == [Num(4)] && adj[Num(3)] == [Num(4), Num(5)]
    && adj[Num(4)] == [Num(5)] && adj[Num(5)] == [Num(6)] && adj[Num(6)] == []
  }

  // One unfolding of the breadth-first queue run and of `BfsOrder`, stated
  // once for every map, so that the scenarios below never unfold them on
  // a literal map.

  lemma BfsRunFrom(adj: map<Id, seq<Id>>, Q: seq<Id>, vis: set<Id>, e: seq<Id>, rest: seq<Id>)
    requires Q != [] && Enqueued(Neighbours(adj, Q[0]), vis) == e
    requires BfsRun(adj, Q[1..] + e, vis + Elems(e)) == rest
    ensures BfsRun(adj, Q, vis) == [Q[0]] + rest
  {
  }

  /** Neighbours that are all visited enqueue nothing. */
  lemma EnqueuedSeen(ns: seq<Id>, vis: set<Id>)
    requires forall w :: w in ns ==> w in vis
    ensures Enqueued(ns, vis) == []
  {
    if ns != [] {
      EnqueuedSeen(ns[1..], vis);
    }
  }

  /** Two distinct unvisited neighbours are both enqueued, in list order. */
  lemma EnqueuedFresh2(a: Id, b: Id, vis: set<Id>)
    requires a !in vis && b !in vis && a != b
    ensures Enqueued([a, b], vis) == [a, b]
  {
    assert [a, b][1..] == [b] && [b][1..] == [];
    assert Enqueued([b], vis + {a}) == [b];
  }

  /** A start whose two neighbours are new enqueues both, in list order. */
  lemma BfsRunFromTwo(adj: map<Id, seq<Id>>, a: Id, b: Id, c: Id, rest: seq<Id>)
    requires a in adj && adj[a] == [b, c] && a != b && a != c && b != c
    requires BfsRun(adj, [b, c], {a, b, c}) == rest
    ensures BfsRun(adj, [a], {a}) == [a] + rest
  {
    EnqueuedFresh2(b, c, {a});
    assert {a} + Elems([b, c]) == {a, b, c} && [a][1..] + [b, c] == [b, c];
    BfsRunFrom(adj, [a], {a}, [b, c], rest);
  }

  lemma BfsOrderFrom(adj: map<Id, seq<Id>>, start: Id, r: seq<Id>)
    requires start in adj && BfsRun(adj, [start], {start}) == r
    ensures BfsOrder(adj, start) == r
  {
  }

  lemma DfsOrderFrom(adj: map<Id, seq<Id>>, start: Id, r: seq<Id>)
    requires DfsVisit(adj, start, {}) == r
    ensures DfsOrder(adj, start) == r
  {
  }

  // The depth-first search from A visits the letters one call at a time;
  // each lemma below is one call of the recursive helper, given the
  // vertices already visited when it starts.

  lemma LettersVisitF(adj: map<Id, seq<Id>>)
    requires LettersLists(adj)
    ensures DfsVisit(adj, F, {A, B, C, D, E}) == [F]
  {
    assert {A, B, C, D, E} + {F} == {A, B, C, D, E, F};
    assert DfsVisitAll(adj, [D], {A, B, C, D, E, F}) == [];
  }

  lemma LettersVisitE(adj: map<Id, seq<Id>>)
    requires LettersLists(adj)
    ensures DfsVisit(adj, E, {A, B, C, D}) == [E]
  {
    var s5 := {A, B, C, D, E};
    assert {A, B, C, D} + {E} == s5;
    assert DfsVisitAll(adj, [D], s5) == [];
    assert DfsVisitAll(adj, [C, D], s5) == [];
  }

  lemma LettersVisitC(adj: map<Id, seq<Id>>)
    requires LettersLists(adj)
    ensures DfsVisit(adj, C, {A, B, D}) == [C, E]
  {
    var s4 := {A, B, C, D};
    assert {A, B, D} + {C} == s4;
    LettersVisitE(adj);
    assert DfsVisitAll(adj, [E], s4) == [E];
    assert DfsVisitAll(adj, [D, E], s4) == [E];
    assert DfsVisitAll(adj, [A, D, E], s4) == [E];
  }

  /** The rest of D's list once D is visited: C's search, then F's. */
  lemma LettersVisitCF(adj: map<Id, seq<Id>>)
    requires LettersLists(adj)
    ensures DfsVisitAll(adj, [C, E, F], {A, B, D}) == [C, E, F]
  {
    var s3, s5 := {A, B, D}, {A, B, C, D, E};
    LettersVisitC(adj);
    LettersVisitF(adj);
    assert s3 + Elems([C, E]) == s5;
    assert DfsVisitAll(adj, [F], s5) == [F];
    DfsAllSkip(adj, [E, F], s5, [F]);
    DfsAllTake(adj, [C, E, F], s3, [C, E], [F]);
  }

  lemma LettersVisitD(adj: map<Id, seq<Id>>)
    requires LettersLists(adj)
    ensures DfsVisit(adj, D, {A, B}) == [D, C, E, F]
  {
    LettersVisitCF(adj);
    assert {A, B} + {D} == {A, B, D};
    DfsAllSkip(adj, [B, C, E, F], {A, B, D}, [C, E, F]);
    DfsVisitUnfold(adj, D, {A, B});
  }

  lemma LettersVisitB(adj: map<Id, seq<Id>>)
    requires LettersLists(adj)
    ensures DfsVisit(adj, B, {A}) == [B, D, C, E, F]
  {
    assert {A} + {B} == {A, B};
    LettersVisitD(adj);
    assert DfsVisitAll(adj, [D], {A, B}) == [D, C, E, F];
    assert DfsVisitAll(adj, [A, D], {A, B}) == [D, C, E, F];
  }

  lemma LettersVisitA(adj: map<Id, seq<Id>>)
    requires LettersLists(adj)
    ensures DfsVisit(adj, A, {}) == [A, B, D, C, E, F]
  {
    var all := {A, B, C, D, E, F};
    assert {} + {A} == {A};
    LettersVisitB(adj);
    assert {A} + Elems([B, D, C, E, F]) == all;
    assert DfsVisitAll(adj, [C], all) == [];
    assert DfsVisitAll(adj, [B, C], {A}) == [B, D, C, E, F];
  }

  /** The order the program prints for `dfs('A')` on the letter graph. */
  lemma LettersDfs()
    ensures DfsOrder(Letters, A) == [A, B, D, C, E, F]
  {
    assert LettersLists(Letters);
    LettersVisitA(Letters);
    DfsOrderFrom(Letters, A, [A, B, D, C, E, F]);
  }

  // The breadth-first search from A, one dequeued vertex per lemma, given
  // the queue and the vertices already marked visited.

  lemma LettersRunEF(adj: map<Id, seq<Id>>)
    requires LettersLists(adj)
    ensures BfsRun(adj, [E, F], {A, B, C, D, E, F}) == [E, F]
  {
    var all := {A, B, C, D, E, F};
    assert Enqueued([D], all) == [] && all + Elems([]) == all;
    assert BfsRun(adj, [F], all) == [F];
    assert Enqueued([C, D], all) == [];
  }

  lemma LettersRunDE(adj: map<Id, seq<Id>>)
    requires LettersLists(adj)
    ensures BfsRun(adj, [D, E], {A, B, C, D, E}) == [D, E, F]
  {
    var s5 := {A, B, C, D, E};
    assert Enqueued([F], s5) == [F];
    assert Enqueued([E, F], s5) == [F];
    assert Enqueued([C, E, F], s5) == [F];
    assert Enqueued([B, C, E, F], s5) == [F];
    assert s5 + Elems([F]) == {A, B, C, D, E, F} && [E] + [F] == [E, F];
    LettersRunEF(adj);
  }

  lemma LettersRunCD(adj: map<Id, seq<Id>>)
    requires LettersLists(adj)
    ensures BfsRun(adj, [C, D], {A, B, C, D}) == [C, D, E, F]
  {
    var s4 := {A, B, C, D};
    assert Enqueued([E], s4) == [E];
    assert Enqueued([D, E], s4) == [E];
    assert Enqueued([A, D, E], s4) == [E];
    assert s4 + Elems([E]) == {A, B, C, D, E} && [D] + [E] == [D, E];
    LettersRunDE(adj);
  }

  lemma LettersRunBC(adj: map<Id, seq<Id>>)
    requires LettersLists(adj)
    ensures BfsRun(adj, [B, C], {A, B, C}) == [B, C, D, E, F]
  {
    var s3 := {A, B, C};
    assert Enqueued([D], s3) == [D];
    assert Enqueued([A, D], s3) == [D];
    assert s3 + Elems([D]) == {A, B, C, D} && [C] + [D] == [C, D];
    LettersRunCD(adj);
  }

  lemma LettersRunA(adj: map<Id, seq<Id>>)
    requires LettersLists(adj)
    ensures BfsRun(adj, [A], {A}) == [A, B, C, D, E, F]
  {
    EnqueuedFresh2(B, C, {A});
    assert {A} + Elems([B, C]) == {A, B, C} && [A][1..] + [B, C] == [B, C];
    LettersRunBC(adj);
    BfsRunFrom(adj, [A], {A}, [B, C], [B, C, D, E, F]);
  }

  /** The order the program prints for `bfs('A')` on the letter graph. */
  lemma LettersBfs()
    ensures BfsOrder(Letters, A) == [A, B, C, D, E, F]
  {
    assert LettersLists(Letters);
    LettersRunA(Letters);
    BfsOrderFrom(Letters, A, [A, B, C, D, E, F]);
  }

  /** Everything reachable from A is one of the six letters, none of them falsy. */
  lemma LettersClosed(adj: map<Id, seq<Id>>)
    requires LettersLists(adj)
    ensures ClosedUnder(adj, iset{A, B, C, D, E, F})
  {
  }

  lemma LettersNoFalsy()
    ensures forall w :: Reachable(Letters, A, w) ==> !IsFalsy(w)
  {
    var R := iset{A, B, C, D, E, F};
    assert LettersLists(Letters);
    LettersClosed(Letters);
    LettersTruthy();
    forall w | Reachable(Letters, A, w) ensures !IsFalsy(w) {
      ReachableInClosed(Letters, R, A, w);
    }
  }

  lemma LettersTruthy()
    ensures NoFalsyIn(iset{A, B, C, D, E, F})
  {
    assert !IsFalsy(A) && !IsFalsy(B) && !IsFalsy(C);
    assert !IsFalsy(D) && !IsFalsy(E) && !IsFalsy(F);
  }

  lemma NumbersVisit5(adj: map<Id, seq<Id>>)
    requires NumbersLists(adj)
    ensures DfsVisit(adj, Num(5), {Num(1), Num(2), Num(4)}) == [Num(5), Num(6)]
  {
    var n1, n2, n4, n5, n6 := Num(1), Num(2), Num(4), Num(5), Num(6);
    assert {n1, n2, n4} + {n5} == {n1, n2, n4, n5};
    assert {n1, n2, n4, n5} + {n6} == {n1, n2, n4, n5, n6};
    assert DfsVisit(adj, n6, {n1, n2, n4, n5}) == [n6];
    assert DfsVisitAll(adj, [n6], {n1, n2, n4, n5}) == [n6];
  }

  lemma NumbersVisit2(adj: map<Id, seq<Id>>)
    requires NumbersLists(adj)
    ensures DfsVisit(adj, Num(2), {Num(1)}) == [Num(2), Num(4), Num(5), Num(6)]
  {
    var n1, n2, n4, n5, n6 := Num(1), Num(2), Num(4), Num(5), Num(6);
    NumbersVisit5(adj);
    assert DfsVisitAll(adj, [n5], {n1, n2, n4}) == [n5, n6];
    assert {n1, n2} + {n4} == {n1, n2, n4};
    assert DfsVisitAll(adj, [n4], {n1, n2}) == [n4, n5, n6];
    assert {n1} + {n2} == {n1, n2};
  }

  lemma NumbersVisit3(adj: map<Id, seq<Id>>)
    requires NumbersLists(adj)
    ensures DfsVisit(adj, Num(3), {Num(1), Num(2), Num(4), Num(5), Num(6)}) == [Num(3)]
  {
    var n1, n2, n3, n4, n5, n6 := Num(1), Num(2), Num(3), Num(4), Num(5), Num(6);
    var all := {n1, n2, n3, n4, n5, n6};
    assert {n1, n2, n4, n5, n6} + {n3} == all;
    assert DfsVisitAll(adj, [n5], all) == [];
    assert DfsVisitAll(adj, [n4, n5], all) == [];
  }

  lemma NumbersVisit1(adj: map<Id, seq<Id>>)
    requires NumbersLists(adj)
    ensures DfsVisit(adj, Num(1), {}) == [Num(1), Num(2), Num(4), Num(5), Num(6), Num(3)]
  {
    var n1, n2, n3, n4, n5, n6 := Num(1), Num(2), Num(3), Num(4), Num(5), Num(6);
    NumbersVisit2(adj);
    NumbersVisit3(adj);
    assert {n1} + Elems([n2, n4, n5, n6]) == {n1, n2, n4, n5, n6};
    assert DfsVisitAll(adj, [n3], {n1, n2, n4, n5, n6}) == [n3];
    assert {} + {n1} == {n1};
  }

  /** The order the program prints for `dfs(1)` on the number graph. */
  lemma NumbersDfs()
    ensures DfsOrder(Numbers, Num(1)) == [Num(1), Num(2), Num(4), Num(5), Num(6), Num(3)]
  {
    assert NumbersLists(Numbers);
    NumbersVisit1(Numbers);
    DfsOrderFrom(Numbers, Num(1), [Num(1), Num(2), Num(4), Num(5), Num(6), Num(3)]);
  }

  // The breadth-first search from 1, one dequeued vertex per lemma.

  lemma NumbersRun6(adj: map<Id, seq<Id>>)
    requires NumbersLists(adj)
    ensures BfsRun(adj, [Num(6)], {Num(1), Num(2), Num(3), Num(4), Num(5), Num(6)}) == [Num(6)]
  {
    var all := {Num(1), Num(2), Num(3), Num(4), Num(5), Num(6)};
    assert Enqueued([], all) == [] && all + Elems([]) == all;
    assert [Num(6)][1..] + [] == [];
  }

  lemma NumbersRun5(adj: map<Id, seq<Id>>)
    requires NumbersLists(adj)
    ensures BfsRun(adj, [Num(5)], {Num(1), Num(2), Num(3), Num(4), Num(5)}) == [Num(5), Num(6)]
  {
    var t5 := {Num(1), Num(2), Num(3), Num(4), Num(5)};
    NumbersRun6(adj);
    assert t5 + {Num(6)} == {Num(1), Num(2), Num(3), Num(4), Num(5), Num(6)};
    assert Enqueued([Num(6)], t5) == [Num(6)] && Elems([Num(6)]) == {Num(6)};
    assert [Num(5)][1..] + [Num(6)] == [Num(6)];
  }

  lemma NumbersRun45(adj: map<Id, seq<Id>>)
    requires NumbersLists(adj)
    ensures BfsRun(adj, [Num(4), Num(5)], {Num(1), Num(2), Num(3), Num(4), Num(5)})
         == [Num(4), Num(5), Num(6)]
  {
    var t5 := {Num(1), Num(2), Num(3), Num(4), Num(5)};
    NumbersRun5(adj);
    assert Enqueued([Num(5)], t5) == [] && t5 + Elems([]) == t5;
    assert [Num(4), Num(5)][1..] + [] == [Num(5)];
  }

  lemma NumbersRun34(adj: map<Id, seq<Id>>)
    requires NumbersLists(adj)
    ensures BfsRun(adj, [Num(3), Num(4)], {Num(1), Num(2), Num(3), Num(4)})
         == [Num(3), Num(4), Num(5), Num(6)]
  {
    var t4 := {Num(1), Num(2), Num(3), Num(4)};
    NumbersRun45(adj);
    assert Enqueued([Num(5)], t4) == [Num(5)];
    assert Enqueued([Num(4), Num(5)], t4) == [Num(5)];
    assert t4 + Elems([Num(5)]) == {Num(1), Num(2), Num(3), Num(4), Num(5)};
    assert [Num(3), Num(4)][1..] + [Num(5)] == [Num(4), Num(5)];
  }

  lemma NumbersRun23(adj: map<Id, seq<Id>>)
    requires NumbersLists(adj)
    ensures BfsRun(adj, [Num(2), Num(3)], {Num(1), Num(2), Num(3)})
         == [Num(2), Num(3), Num(4), Num(5), Num(6)]
  {
    var t3 := {Num(1), Num(2), Num(3)};
    NumbersRun34(adj);
    assert Enqueued([Num(4)], t3) == [Num(4)];
    assert t3 + Elems([Num(4)]) == {Num(1), Num(2), Num(3), Num(4)};
    assert [Num(2), Num(3)][1..] + [Num(4)] == [Num(3), Num(4)];
    BfsRunFrom(adj, [Num(2), Num(3)], t3, [Num(4)], [Num(3), Num(4), Num(5), Num(6)]);
  }

  lemma NumbersRun1(adj: map<Id, seq<Id>>)
    requires NumbersLists(adj)
    ensures BfsRun(adj, [Num(1)], {Num(1)}) == [Num(1), Num(2), Num(3), Num(4), Num(5), Num(6)]
  {
    NumbersRun23(adj);
    BfsRunFromTwo(adj, Num(1), Num(2), Num(3), [Num(2), Num(3), Num(4), Num(5), Num(6)]);
  }

  /** The order the program prints for `bfs(1)` on the number graph. */
  lemma NumbersBfs()
    ensures BfsOrder(Numbers, Num(1)) == [Num(1), Num(2), Num(3), Num(4), Num(5), Num(6)]
  {
    assert NumbersLists(Numbers);
    NumbersRun1(Numbers);
    BfsOrderFrom(Numbers, Num(1), [Num(1), Num(2), Num(3), Num(4), Num(5), Num(6)]);
  }

  const LettersGraph := AdjacencyList([A, B, C, D, E, F], Letters)
  const NumbersGraph := AdjacencyList([Num(1), Num(2), Num(3), Num(4), Num(5), Num(6)], Numbers)

  lemma LettersDistinct()
    ensures A != B && A != C && A != D && A != E && A != F
    ensures B != C && B != D && B != E && B != F
    ensures C != D && C != E && C != F
    ensures D != E && D != F && E != F
  {
  }

  // Building the letter graph: the Map after each of the seven `addEdge` calls.

  const Letters1 := AdjacencyList([A, B], map[A := [B], B := [A]])
  const Letters2 := AdjacencyList([A, B, C], map[A := [B, C], B := [A], C := [A]])
  const Letters3 := AdjacencyList([A, B, C, D], map[A := [B, C], B := [A, D], C := [A], D := [B]])
  const Letters4 := AdjacencyList([A, B, C, D], map[A := [B, C], B := [A, D], C := [A, D], D := [B, C]])
  const Letters5 := AdjacencyList([A, B, C, D, E], map[A := [B, C], B := [A, D], C := [A, D, E], D := [B, C], E := [C]])
  const Letters6 := AdjacencyList([A, B, C, D, E], map[A := [B, C], B := [A, D], C := [A, D, E], D := [B, C, E], E := [C, D]])

  lemma LettersBuild1()
    ensures AddEdgeOf(Empty, false, A, B) == Letters1
  {
    LettersDistinct();
    var s1 := AddVertexOf(Empty, A);
    assert s1 == AdjacencyList([A], map[A := []]);
    var s2 := AddVertexOf(s1, B);
    assert s2 == AdjacencyList([A, B], map[A := [], B := []]);
    assert s2.adj[A] + [B] == [B];
    var a1 := s2.adj[A := s2.adj[A] + [B]];
    assert a1 == map[A := [B], B := []];
    assert a1[B] + [A] == [A];
    assert a1[B := a1[B] + [A]] == map[A := [B], B := [A]];
    assert PushEdge(s2, false, A, B) == Letters1;
  }

  lemma LettersBuild2()
    ensures AddEdgeOf(Letters1, false, A, C) == Letters2
  {
    LettersDistinct();
    var s1 := AddVertexOf(Letters1, A);
    assert s1 == AdjacencyList([A, B], map[A := [B], B := [A]]);
    var s2 := AddVertexOf(s1, C);
    assert s2 == AdjacencyList([A, B, C], map[A := [B], B := [A], C := []]);
    assert s2.adj[A] + [C] == [B, C];
    var a1 := s2.adj[A := s2.adj[A] + [C]];
    assert a1 == map[A := [B, C], B := [A], C := []];
    assert a1[C] + [A] == [A];
    assert a1[C := a1[C] + [A]] == map[A := [B, C], B := [A], C := [A]];
    assert PushEdge(s2, false, A, C) == Letters2;
  }

  lemma LettersBuild3()
    ensures AddEdgeOf(Letters2, false, B, D) == Letters3
  {
    LettersDistinct();
    var s1 := AddVertexOf(Letters2, B);
    assert s1 == AdjacencyList([A, B, C], map[A := [B, C], B := [A], C := [A]]);
    var s2 := AddVertexOf(s1, D);
    assert s2 == AdjacencyList([A, B, C, D], map[A := [B, C], B := [A], C := [A], D := []]);
    assert s2.adj[B] + [D] == [A, D];
    var a1 := s2.adj[B := s2.adj[B] + [D]];
    assert a1 == map[A := [B, C], B := [A, D], C := [A], D := []];
    assert a1[D] + [B] == [B];
    assert a1[D := a1[D] + [B]] == map[A := [B, C], B := [A, D], C := [A], D := [B]];
    assert PushEdge(s2, false, B, D) == Letters3;
  }

  lemma LettersBuild4()
    ensures AddEdgeOf(Letters3, false, C, D) == Letters4
  {
    LettersDistinct();
    var s1 := AddVertexOf(Letters3, C);
    assert s1 == AdjacencyList([A, B, C, D], map[A := [B, C], B := [A, D], C := [A], D := [B]]);
    var s2 := AddVertexOf(s1, D);
    assert s2 == AdjacencyList([A, B, C, D], map[A := [B, C], B := [A, D], C := [A], D := [B]]);
    assert s2.adj[C] + [D] == [A, D];
    var a1 := s2.adj[C := s2.adj[C] + [D]];
    assert a1 == map[A := [B, C], B := [A, D], C := [A, D], D := [B]];
    assert a1[D] + [C] == [B, C];
    assert a1[D := a1[D] + [C]] == map[A := [B, C], B := [A, D], C := [A, D], D := [B, C]];
    assert PushEdge(s2, false, C, D) == Letters4;
  }

  lemma LettersBuild5()
    ensures AddEdgeOf(Letters4, false, C, E) == Letters5
  {
    LettersDistinct();
    var s1 := AddVertexOf(Letters4, C);
    assert s1 == AdjacencyList([A, B, C, D], map[A := [B, C], B := [A, D], C := [A, D], D := [B, C]]);
    var s2 := AddVertexOf(s1, E);
    assert s2 == AdjacencyList([A, B, C, D, E], map[A := [B, C], B := [A, D], C := [A, D], D := [B, C], E := []]);
    assert s2.adj[C] + [E] == [A, D, E];
    var a1 := s2.adj[C := s2.adj[C] + [E]];
    assert a1 == map[A := [B, C], B := [A, D], C := [A, D, E], D := [B, C], E := []];
    assert a1[E] + [C] == [C];
    assert a1[E := a1[E] + [C]] == map[A := [B, C], B := [A, D], C := [A, D, E], D := [B, C], E := [C]];
    assert PushEdge(s2, false, C, E) == Letters5;
  }

  lemma LettersBuild6()
    ensures AddEdgeOf(Letters5, false, D, E) == Letters6
  {
    LettersDistinct();
    var s1 := AddVertexOf(Letters5, D);
    assert s1 == AdjacencyList([A, B, C, D, E], map[A := [B, C], B := [A, D], C := [A, D, E], D := [B, C], E := [C]]);
    var s2 := AddVertexOf(s1, E);
    assert s2 == AdjacencyList([A, B, C, D, E], map[A := [B, C], B := [A, D], C := [A, D, E], D := [B, C], E := [C]]);
    assert s2.adj[D] + [E] == [B, C, E];
    var a1 := s2.adj[D := s2.adj[D] + [E]];
    assert a1 == map[A := [B, C], B := [A, D], C := [A, D, E], D := [B, C, E], E := [C]];
    assert a1[E] + [D] == [C, D];
    assert a1[E := a1[E] + [D]] == map[A := [B, C], B := [A, D], C := [A, D, E], D := [B, C, E], E := [C, D]];
    assert PushEdge(s2, false, D, E) == Letters6;
  }

  lemma LettersBuild7()
    ensures AddEdgeOf(Letters6, false, D, F) == LettersGraph
  {
    LettersDistinct();
    var s1 := AddVertexOf(Letters6, D);
    assert s1 == AdjacencyList([A, B, C, D, E], map[A := [B, C], B := [A, D], C := [A, D, E], D := [B, C, E], E := [C, D]]);
    var s2 := AddVertexOf(s1, F);
    assert s2 == AdjacencyList([A, B, C, D, E, F], map[A := [B, C], B := [A, D], C := [A, D, E], D := [B, C, E], E := [C, D], F := []]);
    assert s2.adj[D] + [F] == [B, C, E, F];
    var a1 := s2.adj[D := s2.adj[D] + [F]];
    assert a1 == map[A := [B, C], B := [A, D], C := [A, D, E], D := [B, C, E, F], E := [C, D], F := []];
    assert a1[F] + [D] == [D];
    assert a1[F := a1[F] + [D]] == map[A := [B, C], B := [A, D], C := [A, D, E], D := [B, C, E, F], E := [C, D], F := [D]];
    assert PushEdge(s2, false, D, F) == LettersGraph;
  }


  /** The undirected letter graph has 6 vertices and 7 edges (14 list entries). */
  lemma LettersEdges()
    ensures |LettersGraph.keys| == 6
    ensures Entries(LettersGraph) == 14 && EdgeCountOf(LettersGraph, false) == 7
  {
    var ks := [A, B, C, D, E, F];
    assert ks[..1] == [A] && [A][..0] == [];
    assert ks[..2][..1] == [A] && ks[..3][..2] == ks[..2] && ks[..4][..3] == ks[..3];
    assert ks[..5][..4] == ks[..4] && ks[..5] == ks[..6][..5] && ks[..6] == ks;
    assert SumLengths(ks[..1], Letters) == 2;
    assert SumLengths(ks[..2], Letters) == 4;
    assert SumLengths(ks[..3], Letters) == 7;
    assert SumLengths(ks[..4], Letters) == 11;
    assert SumLengths(ks[..5], Letters) == 13;
  }

  // Building the number graph, directed, one `addEdge` at a time.

  const Numbers1 := AdjacencyList([Num(1), Num(2)], map[Num(1) := [Num(2)], Num(2) := []])
  const Numbers2 := AdjacencyList([Num(1), Num(2), Num(3)], map[Num(1) := [Num(2), Num(3)], Num(2) := [], Num(3) := []])
  const Numbers3 := AdjacencyList([Num(1), Num(2), Num(3), Num(4)], map[Num(1) := [Num(2), Num(3)], Num(2) := [Num(4)], Num(3) := [], Num(4) := []])
  const Numbers4 := AdjacencyList([Num(1), Num(2), Num(3), Num(4)], map[Num(1) := [Num(2), Num(3)], Num(2) := [Num(4)], Num(3) := [Num(4)], Num(4) := []])
  const Numbers5 := AdjacencyList([Num(1), Num(2), Num(3), Num(4), Num(5)], map[Num(1) := [Num(2), Num(3)], Num(2) := [Num(4)], Num(3) := [Num(4), Num(5)], Num(4) := [], Num(5) := []])
  const Numbers6 := AdjacencyList([Num(1), Num(2), Num(3), Num(4), Num(5)], map[Num(1) := [Num(2), Num(3)], Num(2) := [Num(4)], Num(3) := [Num(4), Num(5)], Num(4) := [Num(5)], Num(5) := []])

  lemma NumbersBuild1()
    ensures AddEdgeOf(Empty, true, Num(1), Num(2)) == Numbers1
  {
    var s2 := AdjacencyList([Num(1), Num(2)], map[Num(1) := [], Num(2) := []]);
    assert AddVertexOf(Empty, Num(1)) == AdjacencyList([Num(1)], map[Num(1) := []]);
    assert AddVertexOf(AddVertexOf(Empty, Num(1)), Num(2)) == s2;
    assert s2.adj[Num(1)] + [Num(2)] == [Num(2)];
    assert s2.adj[Num(1) := [Num(2)]] == Numbers1.adj;
    assert PushEdge(s2, true, Num(1), Num(2)) == Numbers1;
  }

  lemma NumbersBuild2()
    ensures AddEdgeOf(Numbers1, true, Num(1), Num(3)) == Numbers2
  {
    var s1 := AddVertexOf(Numbers1, Num(1));
    assert s1 == AdjacencyList([Num(1), Num(2)], map[Num(1) := [Num(2)], Num(2) := []]);
    var s2 := AddVertexOf(s1, Num(3));
    assert s2 == AdjacencyList([Num(1), Num(2), Num(3)], map[Num(1) := [Num(2)], Num(2) := [], Num(3) := []]);
    assert s2.adj[Num(1)] + [Num(3)] == [Num(2), Num(3)];
    var a1 := s2.adj[Num(1) := s2.adj[Num(1)] + [Num(3)]];
    assert a1 == map[Num(1) := [Num(2), Num(3)], Num(2) := [], Num(3) := []];
    assert PushEdge(s2, true, Num(1), Num(3)) == Numbers2;
  }

  lemma NumbersBuild3()
    ensures AddEdgeOf(Numbers2, true, Num(2), Num(4)) == Numbers3
  {
    var s1 := AddVertexOf(Numbers2, Num(2));
    assert s1 == AdjacencyList([Num(1), Num(2), Num(3)], map[Num(1) := [Num(2), Num(3)], Num(2) := [], Num(3) := []]);
    var s2 := AddVertexOf(s1, Num(4));
    assert s2 == AdjacencyList([Num(1), Num(2), Num(3), Num(4)], map[Num(1) := [Num(2), Num(3)], Num(2) := [], Num(3) := [], Num(4) := []]);
    assert s2.adj[Num(2)] + [Num(4)] == [Num(4)];
    var a1 := s2.adj[Num(2) := s2.adj[Num(2)] + [Num(4)]];
    assert a1 == map[Num(1) := [Num(2), Num(3)], Num(2) := [Num(4)], Num(3) := [], Num(4) := []];
    assert PushEdge(s2, true, Num(2), Num(4)) == Numbers3;
  }

  lemma NumbersBuild4()
    ensures AddEdgeOf(Numbers3, true, Num(3), Num(4)) == Numbers4
  {
    var s1 := AddVertexOf(Numbers3, Num(3));
    assert s1 == AdjacencyList([Num(1), Num(2), Num(3), Num(4)], map[Num(1) := [Num(2), Num(3)], Num(2) := [Num(4)], Num(3) := [], Num(4) := []]);
    var s2 := AddVertexOf(s1, Num(4));
    assert s2 == AdjacencyList([Num(1), Num(2), Num(3), Num(4)], map[Num(1) := [Num(2), Num(3)], Num(2) := [Num(4)], Num(3) := [], Num(4) := []]);
    assert s2.adj[Num(3)] + [Num(4)] == [Num(4)];
    var a1 := s2.adj[Num(3) := s2.adj[Num(3)] + [Num(4)]];
    assert a1 == map[Num(1) := [Num(2), Num(3)], Num(2) := [Num(4)], Num(3) := [Num(4)], Num(4) := []];
    assert PushEdge(s2, true, Num(3), Num(4)) == Numbers4;
  }

  lemma NumbersBuild5()
    ensures AddEdgeOf(Numbers4, true, Num(3), Num(5)) == Numbers5
  {
    var s1 := AddVertexOf(Numbers4, Num(3));
    assert s1 == AdjacencyList([Num(1), Num(2), Num(3), Num(4)], map[Num(1) := [Num(2), Num(3)], Num(2) := [Num(4)], Num(3) := [Num(4)], Num(4) := []]);
    var s2 := AddVertexOf(s1, Num(5));
    assert s2 == AdjacencyList([Num(1), Num(2), Num(3), Num(4), Num(5)], map[Num(1) := [Num(2), Num(3)], Num(2) := [Num(4)], Num(3) := [Num(4)], Num(4) := [], Num(5) := []]);
    assert s2.adj[Num(3)] + [Num(5)] == [Num(4), Num(5)];
    var a1 := s2.adj[Num(3) := s2.adj[Num(3)] + [Num(5)]];
    assert a1 == map[Num(1) := [Num(2), Num(3)], Num(2) := [Num(4)], Num(3) := [Num(4), Num(5)], Num(4) := [], Num(5) := []];
    assert PushEdge(s2, true, Num(3), Num(5)) == Numbers5;
  }

  lemma NumbersBuild6()
    ensures AddEdgeOf(Numbers5, true, Num(4), Num(5)) == Numbers6
  {
    var s1 := AddVertexOf(Numbers5, Num(4));
    assert s1 == AdjacencyList([Num(1), Num(2), Num(3), Num(4), Num(5)], map[Num(1) := [Num(2), Num(3)], Num(2) := [Num(4)], Num(3) := [Num(4), Num(5)], Num(4) := [], Num(5) := []]);
    var s2 := AddVertexOf(s1, Num(5));
    assert s2 == AdjacencyList([Num(1), Num(2), Num(3), Num(4), Num(5)], map[Num(1) := [Num(2), Num(3)], Num(2) := [Num(4)], Num(3) := [Num(4), Num(5)], Num(4) := [], Num(5) := []]);
    assert s2.adj[Num(4)] + [Num(5)] == [Num(5)];
    var a1 := s2.adj[Num(4) := s2.adj[Num(4)] + [Num(5)]];
    assert a1 == map[Num(1) := [Num(2), Num(3)], Num(2) := [Num(4)], Num(3) := [Num(4), Num(5)], Num(4) := [Num(5)], Num(5) := []];
    assert PushEdge(s2, true, Num(4), Num(5)) == Numbers6;
  }

  lemma NumbersBuild7()
    ensures AddEdgeOf(Numbers6, true, Num(5), Num(6)) == NumbersGraph
  {
    var s1 := AddVertexOf(Numbers6, Num(5));
    assert s1 == AdjacencyList([Num(1), Num(2), Num(3), Num(4), Num(5)], map[Num(1) := [Num(2), Num(3)], Num(2) := [Num(4)], Num(3) := [Num(4), Num(5)], Num(4) := [Num(5)], Num(5) := []]);
    var s2 := AddVertexOf(s1, Num(6));
    assert s2 == AdjacencyList([Num(1), Num(2), Num(3), Num(4), Num(5), Num(6)], map[Num(1) := [Num(2), Num(3)], Num(2) := [Num(4)], Num(3) := [Num(4), Num(5)], Num(4) := [Num(5)], Num(5) := [], Num(6) := []]);
    assert s2.adj[Num(5)] + [Num(6)] == [Num(6)];
    var a1 := s2.adj[Num(5) := s2.adj[Num(5)] + [Num(6)]];
    assert a1 == map[Num(1) := [Num(2), Num(3)], Num(2) := [Num(4)], Num(3) := [Num(4), Num(5)], Num(4) := [Num(5)], Num(5) := [Num(6)], Num(6) := []];
    assert PushEdge(s2, true, Num(5), Num(6)) == NumbersGraph;
  }


  /** The directed number graph has 6 vertices and 7 edges (7 list entries). */
  lemma NumbersEdges()
    ensures |NumbersGraph.keys| == 6
    ensures Entries(NumbersGraph) == 7 && EdgeCountOf(NumbersGraph, true) == 7
  {
    var ks := [Num(1), Num(2), Num(3), Num(4), Num(5), Num(6)];
    assert ks[..1] == [Num(1)] && [Num(1)][..0] == [];
    assert ks[..2][..1] == ks[..1] && ks[..3][..2] == ks[..2] && ks[..4][..3] == ks[..3];
    assert ks[..5][..4] == ks[..4] && ks[..5] == ks[..6][..5] && ks[..6] == ks;
    assert SumLengths(ks[..1], Numbers) == 2;
    assert SumLengths(ks[..2], Numbers) == 3;
    assert SumLengths(ks[..3], Numbers) == 5;
    assert SumLengths(ks[..4], Numbers) == 6;
    assert SumLengths(ks[..5], Numbers) == 7;
  }

  // The edge-operations graph on X, Y and Z.

  const X: Id := Str("X")
  const Y: Id := Str("Y")
  const Z: Id := Str("Z")

  lemma EdgesDistinct()
    ensures X != Y && X != Z && Y != Z
  {
  }

  const Edges1 := AdjacencyList([X, Y], map[X := [Y], Y := [X]])
  const Edges2 := AdjacencyList([X, Y, Z], map[X := [Y], Y := [X, Z], Z := [Y]])
  const EdgesGraph := AdjacencyList([X, Y, Z], map[X := [Y, Z], Y := [X, Z], Z := [Y, X]])

  lemma EdgesBuild1()
    ensures AddEdgeOf(Empty, false, X, Y) == Edges1
  {
    EdgesDistinct();
    var s1 := AddVertexOf(Empty, X);
    assert s1 == AdjacencyList([X], map[X := []]);
    var s2 := AddVertexOf(s1, Y);
    assert s2 == AdjacencyList([X, Y], map[X := [], Y := []]);
    assert s2.adj[X] + [Y] == [Y];
    var a1 := s2.adj[X := s2.adj[X] + [Y]];
    assert a1 == map[X := [Y], Y := []];
    assert a1[Y] + [X] == [X];
    assert a1[Y := a1[Y] + [X]] == map[X := [Y], Y := [X]];
    assert PushEdge(s2, false, X, Y) == Edges1;
  }

  lemma EdgesBuild2()
    ensures AddEdgeOf(Edges1, false, Y, Z) == Edges2
  {
    EdgesDistinct();
    var s1 := AddVertexOf(Edges1, Y);
    assert s1 == AdjacencyList([X, Y], map[X := [Y], Y := [X]]);
    var s2 := AddVertexOf(s1, Z);
    assert s2 == AdjacencyList([X, Y, Z], map[X := [Y], Y := [X], Z := []]);
    assert s2.adj[Y] + [Z] == [X, Z];
    var a1 := s2.adj[Y := s2.adj[Y] + [Z]];
    assert a1 == map[X := [Y], Y := [X, Z], Z := []];
    assert a1[Z] + [Y] == [Y];
    assert a1[Z := a1[Z] + [Y]] == map[X := [Y], Y := [X, Z], Z := [Y]];
    assert PushEdge(s2, false, Y, Z) == Edges2;
  }

  lemma EdgesBuild3()
    ensures AddEdgeOf(Edges2, false, X, Z) == EdgesGraph
  {
    EdgesDistinct();
    var s1 := AddVertexOf(Edges2, X);
    assert s1 == AdjacencyList([X, Y, Z], map[X := [Y], Y := [X, Z], Z := [Y]]);
    var s2 := AddVertexOf(s1, Z);
    assert s2 == AdjacencyList([X, Y, Z], map[X := [Y], Y := [X, Z], Z := [Y]]);
    assert s2.adj[X] + [Z] == [Y, Z];
    var a1 := s2.adj[X := s2.adj[X] + [Z]];
    assert a1 == map[X := [Y, Z], Y := [X, Z], Z := [Y]];
    assert a1[Z] + [X] == [Y, X];
    assert a1[Z := a1[Z] + [X]] == map[X := [Y, Z], Y := [X, Z], Z := [Y, X]];
    assert PushEdge(s2, false, X, Z) == EdgesGraph;
  }


  // The three-vertex graph: A-B, B-C, A-C.

  const Triangle1 := AdjacencyList([A, B], map[A := [B], B := [A]])
  const Triangle2 := AdjacencyList([A, B, C], map[A := [B], B := [A, C], C := [B]])
  const TriangleGraph := AdjacencyList([A, B, C], map[A := [B, C], B := [A, C], C := [B, A]])

  lemma TriangleBuild1()
    ensures AddEdgeOf(Empty, false, A, B) == Triangle1
  {
    LettersDistinct();
    var s1 := AddVertexOf(Empty, A);
    assert s1 == AdjacencyList([A], map[A := []]);
    var s2 := AddVertexOf(s1, B);
    assert s2 == AdjacencyList([A, B], map[A := [], B := []]);
    assert s2.adj[A] + [B] == [B];
    var a1 := s2.adj[A := s2.adj[A] + [B]];
    assert a1 == map[A := [B], B := []];
    assert a1[B] + [A] == [A];
    assert a1[B := a1[B] + [A]] == map[A := [B], B := [A]];
    assert PushEdge(s2, false, A, B) == Triangle1;
  }

  lemma TriangleBuild2()
    ensures AddEdgeOf(Triangle1, false, B, C) == Triangle2
  {
    LettersDistinct();
    var s1 := AddVertexOf(Triangle1, B);
    assert s1 == AdjacencyList([A, B], map[A := [B], B := [A]]);
    var s2 := AddVertexOf(s1, C);
    assert s2 == AdjacencyList([A, B, C], map[A := [B], B := [A], C := []]);
    assert s2.adj[B] + [C] == [A, C];
    var a1 := s2.adj[B := s2.adj[B] + [C]];
    assert a1 == map[A := [B], B := [A, C], C := []];
    assert a1[C] + [B] == [B];
    assert a1[C := a1[C] + [B]] == map[A := [B], B := [A, C], C := [B]];
    assert PushEdge(s2, false, B, C) == Triangle2;
  }

  lemma TriangleBuild3()
    ensures AddEdgeOf(Triangle2, false, A, C) == TriangleGraph
  {
    LettersDistinct();
    var s1 := AddVertexOf(Triangle2, A);
    assert s1 == AdjacencyList([A, B, C], map[A := [B], B := [A, C], C := [B]]);
    var s2 := AddVertexOf(s1, C);
    assert s2 == AdjacencyList([A, B, C], map[A := [B], B := [A, C], C := [B]]);
    assert s2.adj[A] + [C] == [B, C];
    var a1 := s2.adj[A := s2.adj[A] + [C]];
    assert a1 == map[A := [B, C], B := [A, C], C := [B]];
    assert a1[C] + [A] == [B, A];
    assert a1[C := a1[C] + [A]] == map[A := [B, C], B := [A, C], C := [B, A]];
    assert PushEdge(s2, false, A, C) == TriangleGraph;
  }


  lemma TriangleVisitA()
    ensures DfsVisit(TriangleGraph.adj, A, {}) == [A, B, C]
  {
    var adj, all := TriangleGraph.adj, {A, B, C};
    assert {A, B} + {C} == all && {A} + {B} == {A, B} && {} + {A} == {A};
    assert DfsVisitAll(adj, [A], all) == [];
    assert DfsVisit(adj, C, {A, B}) == [C];
    assert DfsVisitAll(adj, [C], {A, B}) == [C];
    assert DfsVisit(adj, B, {A}) == [B, C];
    assert {A} + Elems([B, C]) == all;
    assert DfsVisitAll(adj, [B, C], {A}) == [B, C];
  }

  /** `dfs('A')` on the three-vertex graph. */
  lemma TriangleDfs()
    ensures DfsOrder(TriangleGraph.adj, A) == [A, B, C]
  {
    TriangleVisitA();
    DfsOrderFrom(TriangleGraph.adj, A, [A, B, C]);
  }

  /** The neighbour lists of the three-vertex graph. */
  predicate TriangleLists(adj: map<Id, seq<Id>>)
  {
    A in adj && B in adj && C in adj && adj[A] == [B, C] && adj[B] == [A, C] && adj[C] == [B, A]
  }

  lemma TriangleRunC(adj: map<Id, seq<Id>>)
    requires TriangleLists(adj)
    ensures BfsRun(adj, [C], {A, B, C}) == [C]
  {
    var all := {A, B, C};
    EnqueuedSeen([B, A], all);
    assert all + Elems<Id>([]) == all && [C][1..] + [] == [];
  }

  lemma TriangleRunBC(adj: map<Id, seq<Id>>)
    requires TriangleLists(adj)
    ensures BfsRun(adj, [B, C], {A, B, C}) == [B, C]
  {
    var all := {A, B, C};
    EnqueuedSeen([A, C], all);
    assert all + Elems<Id>([]) == all && [B, C][1..] + [] == [C];
    TriangleRunC(adj);
    BfsRunFrom(adj, [B, C], all, [], [C]);
  }

  lemma TriangleRunA(adj: map<Id, seq<Id>>)
    requires TriangleLists(adj)
    ensures BfsRun(adj, [A], {A}) == [A, B, C]
  {
    EnqueuedFresh2(B, C, {A});
    assert {A} + Elems([B, C]) == {A, B, C} && [A][1..] + [B, C] == [B, C];
    TriangleRunBC(adj);
    BfsRunFrom(adj, [A], {A}, [B, C], [B, C]);
  }

  /** `bfs('A')` on the three-vertex graph. */
  lemma TriangleBfs()
    ensures BfsOrder(TriangleGraph.adj, A) == [A, B, C]
  {
    assert TriangleLists(TriangleGraph.adj);
    TriangleRunA(TriangleGraph.adj);
    BfsOrderFrom(TriangleGraph.adj, A, [A, B, C]);
  }

  /**
   * Test 1: the undirected letter graph built by seven `addEdge` calls;
   * the three traversals from A, the vertex count and the edge count.
   */
  method UndirectedScenario() returns (dfs: seq<Id>, dfsIter: seq<Id>, bfs: seq<Id>, vertices: nat, edges: nat)
    ensures dfs == [A, B, D, C, E, F] && dfsIter == [A, B, D, C, E, F] && bfs == [A, B, C, D, E, F]
    ensures vertices == 6 && edges == 7
  {
    var g := BuildLetters();
    dfs := g.Dfs(A);
    LettersDfs();
    dfsIter := g.DfsIterative(A);
    LettersNoFalsy();
    DfsMatchesIterative(Letters, A);
    bfs := g.Bfs(A);
    LettersBfs();
    vertices := g.VertexCount();
    edges := g.EdgeCount();
    LettersEdges();
  }

  /** Test 2: the directed number graph; traversals from 1 and the counts. */
  method DirectedScenario() returns (dfs: seq<Id>, bfs: seq<Id>, vertices: nat, edges: nat)
    ensures dfs == [Num(1), Num(2), Num(4), Num(5), Num(6), Num(3)]
    ensures bfs == [Num(1), Num(2), Num(3), Num(4), Num(5), Num(6)]
    ensures vertices == 6 && edges == 7
  {
    var g := BuildNumbers();
    dfs := g.Dfs(Num(1));
    NumbersDfs();
    bfs := g.Bfs(Num(1));
    NumbersBfs();
    vertices := g.VertexCount();
    edges := g.EdgeCount();
    NumbersEdges();
  }

  /**
   * Test 3: on the undirected graph X-Y, Y-Z, X-Z every queried edge is
   * present, Y-X included since the graph is undirected; after
   * `removeEdge(X, Z)` that edge is gone.
   */
  method EdgeOperationsScenario() returns (xy: bool, xz: bool, yx: bool, xzAfter: bool)
    ensures xy && xz && yx && !xzAfter
  {
    var g := BuildEdges();
    xy, xz, yx := g.HasEdge(X, Y), g.HasEdge(X, Z), g.HasEdge(Y, X);
    g.RemoveEdge(X, Z);
    xzAfter := g.HasEdge(X, Z);
  }

  /** Test 4: the three-vertex graph A-B, B-C, A-C; both searches from A give A, B, C. */
  method TriangleScenario() returns (dfs: seq<Id>, bfs: seq<Id>)
    ensures dfs == [A, B, C] && bfs == [A, B, C]
  {
    var g := BuildTriangle();
    dfs := g.Dfs(A);
    TriangleDfs();
    bfs := g.Bfs(A);
    TriangleBfs();
  }
  // The four graphs built through the class, one `addEdge` call at a time.

  method BuildLetters() returns (g: Graph)
    ensures fresh(g) && g.Valid() && !g.isDirected && g.Model() == LettersGraph
  {
    g := new Graph(false);
    g.AddEdge(A, B); LettersBuild1();
    g.AddEdge(A, C); LettersBuild2();
    g.AddEdge(B, D); LettersBuild3();
    g.AddEdge(C, D); LettersBuild4();
    g.AddEdge(C, E); LettersBuild5();
    g.AddEdge(D, E); LettersBuild6();
    g.AddEdge(D, F); LettersBuild7();
  }

  method BuildNumbers() returns (g: Graph)
    ensures fresh(g) && g.Valid() && g.isDirected && g.Model() == NumbersGraph
  {
    g := new Graph(true);
    g.AddEdge(Num(1), Num(2)); NumbersBuild1();
    g.AddEdge(Num(1), Num(3)); NumbersBuild2();
    g.AddEdge(Num(2), Num(4)); NumbersBuild3();
    g.AddEdge(Num(3), Num(4)); NumbersBuild4();
    g.AddEdge(Num(3), Num(5)); NumbersBuild5();
    g.AddEdge(Num(4), Num(5)); NumbersBuild6();
    g.AddEdge(Num(5), Num(6)); NumbersBuild7();
  }

  method BuildEdges() returns (g: Graph)
    ensures fresh(g) && g.Valid() && !g.isDirected && g.Model() == EdgesGraph
  {
    g := new Graph(false);
    g.AddEdge(X, Y); EdgesBuild1();
    g.AddEdge(Y, Z); EdgesBuild2();
    g.AddEdge(X, Z); EdgesBuild3();
  }

  method BuildTriangle() returns (g: Graph)
    ensures fresh(g) && g.Valid() && !g.isDirected && g.Model() == TriangleGraph
  {
    g := new Graph(false);
    g.AddEdge(A, B); TriangleBuild1();
    g.AddEdge(B, C); TriangleBuild2();
    g.AddEdge(A, C); TriangleBuild3();
  }
}
