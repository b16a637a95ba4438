/**
 * The `Graph` class: an adjacency-list graph whose Map is updated in
 * place. The Map is kept as its key order `keys` (the order in which
 * `keys()`, `values()` and `Array.from` see it) and its contents `adj`.
 * Every mutator is proved to produce the value its specification function
 * in `Adjacency` describes and to keep the invariant `Inv`; every query and
 * traversal is proved to return what the matching function in `Adjacency`
 * or `Traversal` describes, and the properties proved about those
 * functions are restated on the methods.
 */
module Graphs {
  import opened Ids
  import opened Seqs
  import opened Adjacency
  import opened Traversal

  class Graph {
    const isDirected: bool
    var keys: seq<Id>
    var adj: map<Id, seq<Id>>

    /** The `adjacencyList` Map as a value. */
    function Model(): AdjacencyList
      reads this
    {
      AdjacencyList(keys, adj)
    }

    ghost predicate Valid()
      reads this
    {
      Inv(Model(), isDirected)
    }

    /** `new Graph(isDirected)`: an empty Map. */
    constructor (isDirected: bool)
      ensures this.isDirected == isDirected && Model() == Empty && Valid()
    {
      this.isDirected := isDirected;
      keys := [];
      adj := map[];
    }

    /** `addVertex(vertex)`: a new vertex gets an empty list; a known one is left alone. */
    method AddVertex(vertex: Id)
      requires Valid()
      modifies this
      ensures Valid() && Model() == AddVertexOf(old(Model()), vertex)
    {
      if vertex !in adj {
        keys := keys + [vertex];
        adj := adj[vertex := []];
      }
      AddVertexKeepsInv(old(Model()), isDirected, vertex);
    }

    /**
     * `addEdge(vertex1, vertex2)`: both endpoints are added if missing, then
     * `vertex2` is pushed onto `vertex1`'s list and, when undirected,
     * `vertex1` onto `vertex2`'s. Afterwards the edge is present and the
     * edge count has grown by exactly one.
     */
    method AddEdge(vertex1: Id, vertex2: Id)
      requires Valid()
      modifies this
      ensures Valid() && Model() == AddEdgeOf(old(Model()), isDirected, vertex1, vertex2)
      ensures HasEdge(vertex1, vertex2) && (!isDirected ==> HasEdge(vertex2, vertex1))
      ensures EdgeCountOf(Model(), isDirected) == EdgeCountOf(old(Model()), isDirected) + 1
    {
      ghost var s := old(Model());
      AddVertex(vertex1);
      AddVertex(vertex2);
      ghost var s1 := Model();
      adj := adj[vertex1 := adj[vertex1] + [vertex2]];
      if !isDirected {
        adj := adj[vertex2 := adj[vertex2] + [vertex1]];
      }
      assert Model() == PushEdge(s1, isDirected, vertex1, vertex2);
      AddEdgeKeepsInv(s, isDirected, vertex1, vertex2);
      AddEdgeHasEdge(s, isDirected, vertex1, vertex2);
      AddEdgeCount(s, isDirected, vertex1, vertex2);
    }

    /**
     * `removeEdge(vertex1, vertex2)`: every `vertex2` is filtered out of a
     * known `vertex1`'s list and, when undirected, every `vertex1` out of a
     * known `vertex2`'s list. Afterwards the edge is absent.
     */
    method RemoveEdge(vertex1: Id, vertex2: Id)
      requires Valid()
      modifies this
      ensures Valid() && Model() == RemoveEdgeOf(old(Model()), isDirected, vertex1, vertex2)
      ensures !HasEdge(vertex1, vertex2) && (!isDirected ==> !HasEdge(vertex2, vertex1))
      ensures !old(HasEdge(vertex1, vertex2)) ==> Model() == old(Model())
    {
      ghost var s := Model();
      if vertex1 in adj {
        adj := adj[vertex1 := RemoveAll(adj[vertex1], vertex2)];
      }
      if !isDirected && vertex2 in adj {
        adj := adj[vertex2 := RemoveAll(adj[vertex2], vertex1)];
      }
      assert Model() == RemoveEdgeOf(s, isDirected, vertex1, vertex2);
      RemoveEdgeKeepsInv(s, isDirected, vertex1, vertex2);
      RemoveEdgeSpec(s, isDirected, vertex1, vertex2);
      if !Adjacency.HasEdge(s, vertex1, vertex2) {
        RemoveEdgeAbsent(s, isDirected, vertex1, vertex2);
      }
    }

    /**
     * `removeVertex(vertex)`: nothing for an unknown vertex; otherwise
     * `removeEdge(k, vertex)` for every key `k` in Map order, then the key
     * is deleted. Afterwards `vertex` is neither a vertex nor a neighbour.
     */
    method RemoveVertex(vertex: Id)
      requires Valid()
      modifies this
      ensures Valid() && Model() == RemoveVertexOf(old(Model()), isDirected, vertex)
      ensures vertex !in Vertices() && forall k :: k in adj ==> !HasEdge(k, vertex)
    {
      if vertex !in adj {
        return;
      }
      RemoveEdgesToVertex(keys, vertex);
      keys := RemoveAll(keys, vertex);
      adj := adj - {vertex};
      RemoveVertexKeepsInv(old(Model()), isDirected, vertex);
      RemoveVertexSpec(old(Model()), isDirected, vertex);
    }

    /** The loop of `removeVertex`: `removeEdge(k, vertex)` for each `k` of the key snapshot. */
    method RemoveEdgesToVertex(snapshot: seq<Id>, vertex: Id)
      requires Valid()
      modifies this
      ensures Valid() && Model() == RemoveEdgesTo(old(Model()), isDirected, snapshot, vertex)
    {
      ghost var s := Model();
      for i := 0 to |snapshot|
        invariant Valid()
        invariant Model() == RemoveEdgesTo(s, isDirected, snapshot[..i], vertex)
      {
        ghost var m := Model();
        RemoveEdge(snapshot[i], vertex);
        assert Model() == RemoveEdgeOf(m, isDirected, snapshot[i], vertex);
        assert snapshot[..i + 1][..i] == snapshot[..i];
      }
      assert snapshot[..|snapshot|] == snapshot;
    }

    /** `hasEdge(vertex1, vertex2)`: `vertex1` is known and `vertex2` occurs in its list. */
    function HasEdge(vertex1: Id, vertex2: Id): (b: bool)
      reads this
      ensures b <==> Count(Neighbours(adj, vertex1), vertex2) > 0
    {
      Adjacency.HasEdge(Model(), vertex1, vertex2)
    }

    /** `getVertices()`: the keys in Map order, each once, exactly the known vertices. */
    function Vertices(): (vs: seq<Id>)
      reads this
      requires Valid()
      ensures Distinct(vs) && forall v :: v in vs <==> v in adj
    {
      keys
    }

    /** `getVertexCount()`: the Map's size, which is the number of vertices listed. */
    function VertexCount(): (n: nat)
      reads this
      requires Valid()
      ensures n == |Vertices()|
    {
      SizeIsKeyCount(Model(), isDirected);
      |adj|
    }

    /**
     * `getEdgeCount()`: the list lengths summed in Map order, halved when
     * undirected; the halving is exact because the total is even.
     */
    method EdgeCount() returns (n: nat)
      requires Valid()
      ensures n == EdgeCountOf(Model(), isDirected)
      ensures isDirected ==> n == Entries(Model())
      ensures !isDirected ==> 2 * n == Entries(Model())
    {
      var count := 0;
      for i := 0 to |keys|
        invariant count == SumLengths(keys[..i], adj)
      {
        assert keys[i] in adj && keys[..i + 1][..i] == keys[..i];
        count := count + |adj[keys[i]]|;
      }
      assert keys[..|keys|] == keys;
      EdgeCountExact(Model(), isDirected);
      n := if isDirected then count else count / 2;
    }

    /**
     * `dfsHelper(vertex)` with the closure's `visited` and `result` passed
     * in and handed back: it appends exactly `DfsVisit` and marks exactly
     * the vertices it appends.
     */
    method DfsHelper(vertex: Id, visitedIn: set<Id>, resultIn: seq<Id>) returns (visited: set<Id>, result: seq<Id>)
      ensures result == resultIn + DfsVisit(adj, vertex, visitedIn)
      ensures visited == visitedIn + Elems(DfsVisit(adj, vertex, visitedIn))
      decreases adj.Keys - visitedIn
    {
      visited, result := visitedIn, resultIn;
      if IsFalsy(vertex) || vertex in visited {
        return;
      }
      visited := visited + {vertex};
      result := result + [vertex];
      var neighbors := Neighbours(adj, vertex);
      ghost var goal := DfsVisit(adj, vertex, visitedIn);
      assert goal == [vertex] + DfsVisitAll(adj, neighbors, visited);
      for i := 0 to |neighbors|
        invariant neighbors != [] ==> vertex in adj
        invariant visitedIn + {vertex} <= visited
        invariant result + DfsVisitAll(adj, neighbors[i..], visited) == resultIn + goal
        invariant visited + Elems(DfsVisitAll(adj, neighbors[i..], visited)) == visitedIn + Elems(goal)
      {
        DfsHelperStep(adj, neighbors, i, result, visited, resultIn + goal, visitedIn + Elems(goal));
        if neighbors[i] !in visited {
          visited, result := DfsHelper(neighbors[i], visited, result);
        }
      }
    }

    /**
     * `dfs(startVertex)`: `[]` for a falsy start, otherwise a sequence
     * starting with `startVertex`, without repetitions, of vertices
     * reachable from it; when no falsy vertex is reachable from a known
     * start, it is exactly `dfsIterative`'s result and lists every
     * reachable vertex.
     */
    method Dfs(startVertex: Id) returns (result: seq<Id>)
      ensures result == DfsOrder(adj, startVertex)
      ensures IsFalsy(startVertex) ==> result == []
      ensures !IsFalsy(startVertex) ==> |result| > 0 && result[0] == startVertex
      ensures !IsFalsy(startVertex) && startVertex !in adj ==> result == [startVertex]
      ensures Distinct(result) && forall w :: w in result ==> Reachable(adj, startVertex, w)
      ensures startVertex in adj && (forall w :: Reachable(adj, startVertex, w) ==> !IsFalsy(w)) ==>
        result == DfsIterOrder(adj, startVertex) && forall w :: w in result <==> Reachable(adj, startVertex, w)
    {
      var visited;
      visited, result := DfsHelper(startVertex, {}, []);
      DfsOrderSpec(adj, startVertex);
      if startVertex in adj && forall w :: Reachable(adj, startVertex, w) ==> !IsFalsy(w) {
        DfsMatchesIterative(adj, startVertex);
      }
    }

    /**
     * `dfsIterative(startVertex)`: `[]` for an unknown start; otherwise a
     * sequence starting with `startVertex`, without repetitions, of
     * exactly the vertices reachable from it.
     */
    method DfsIterative(startVertex: Id) returns (result: seq<Id>)
      ensures result == DfsIterOrder(adj, startVertex)
      ensures startVertex !in adj ==> result == []
      ensures startVertex in adj ==> |result| > 0 && result[0] == startVertex && Distinct(result)
      ensures startVertex in adj ==> forall w :: w in result <==> Reachable(adj, startVertex, w)
    {
      if startVertex !in adj {
        return [];
      }
      DfsIterOrderSpec(adj, startVertex);
      var visited: set<Id> := {};
      result := [];
      var stack := [startVertex];
      assert Reverse(stack) == [startVertex];
      while |stack| > 0
        invariant result + StackRun(adj, Reverse(stack), visited) == DfsIterOrder(adj, startVertex)
        decreases |StackRun(adj, Reverse(stack), visited)|, |stack|
      {
        var vertex := stack[|stack| - 1];
        stack := stack[..|stack| - 1];
        if vertex !in visited {
          visited := visited + {vertex};
          result := result + [vertex];
          stack := PushNeighbours(Neighbours(adj, vertex), stack, visited);
        }
      }
    }

    /**
     * `bfs(startVertex)`: `[]` for an unknown start; otherwise a sequence
     * starting with `startVertex`, without repetitions, of exactly the
     * vertices reachable from it.
     */
    method Bfs(startVertex: Id) returns (result: seq<Id>)
      ensures result == BfsOrder(adj, startVertex)
      ensures startVertex !in adj ==> result == []
      ensures startVertex in adj ==> |result| > 0 && result[0] == startVertex && Distinct(result)
      ensures startVertex in adj ==> forall w :: w in result <==> Reachable(adj, startVertex, w)
    {
      if startVertex !in adj {
        return [];
      }
      BfsOrderSpec(adj, startVertex);
      var visited: set<Id> := {startVertex};
      result := [];
      var queue := [startVertex];
      while |queue| > 0
        invariant result + BfsRun(adj, queue, visited) == BfsOrder(adj, startVertex)
        decreases |BfsRun(adj, queue, visited)|
      {
        var vertex := queue[0];
        ghost var e := Enqueued(Neighbours(adj, vertex), visited);
        assert BfsRun(adj, queue, visited) == [vertex] + BfsRun(adj, queue[1..] + e, visited + Elems(e));
        result := result + [vertex];
        queue, visited := EnqueueNeighbours(Neighbours(adj, vertex), queue[1..], visited);
      }
    }
  }

  /**
   * The neighbour loop of `dfsIterative`: walking the list backwards, push
   * each unvisited neighbour, so that read from the top the stack holds the
   * unvisited neighbours in list order above what it held before.
   */
  method PushNeighbours(neighbors: seq<Id>, stackIn: seq<Id>, visited: set<Id>) returns (stack: seq<Id>)
    ensures Reverse(stack) == Unvisited(neighbors, visited) + Reverse(stackIn)
  {
    stack := stackIn;
    for i := |neighbors| downto 0
      invariant Reverse(stack) == Unvisited(neighbors[i..], visited) + Reverse(stackIn)
    {
      PushStep(neighbors, i, stack, visited, Reverse(stackIn));
      if neighbors[i] !in visited {
        stack := stack + [neighbors[i]];
      }
    }
  }

  /** One pass of `DfsHelper`'s neighbour loop keeps its invariants. */
  lemma DfsHelperStep(adj: map<Id, seq<Id>>, ns: seq<Id>, i: nat, result: seq<Id>, vis: set<Id>,
                      goal: seq<Id>, marked: set<Id>)
    requires i < |ns|
    requires result + DfsVisitAll(adj, ns[i..], vis) == goal
    requires vis + Elems(DfsVisitAll(adj, ns[i..], vis)) == marked
    ensures ns[i] in vis ==>
      result + DfsVisitAll(adj, ns[i + 1..], vis) == goal && vis + Elems(DfsVisitAll(adj, ns[i + 1..], vis)) == marked
    ensures ns[i] !in vis ==> var o := DfsVisit(adj, ns[i], vis); var vis' := vis + Elems(o);
      (result + o) + DfsVisitAll(adj, ns[i + 1..], vis') == goal
      && vis' + Elems(DfsVisitAll(adj, ns[i + 1..], vis')) == marked
  {
    var t := ns[i..];
    assert t != [] && t[0] == ns[i] && t[1..] == ns[i + 1..];
    if ns[i] in vis {
      DfsAllSkip(adj, t, vis, DfsVisitAll(adj, ns[i + 1..], vis));
    } else {
      var o := DfsVisit(adj, ns[i], vis);
      var r := DfsVisitAll(adj, ns[i + 1..], vis + Elems(o));
      DfsAllTake(adj, t, vis, o, r);
      assert result + (o + r) == (result + o) + r;
      ElemsAppend(o, r);
    }
  }

  /** One pass of `PushNeighbours`' loop, on the reversed stack. */
  lemma PushStep(ns: seq<Id>, i: nat, stack: seq<Id>, vis: set<Id>, base: seq<Id>)
    requires i < |ns| && Reverse(stack) == Unvisited(ns[i + 1..], vis) + base
    ensures ns[i] !in vis ==> Reverse(stack + [ns[i]]) == Unvisited(ns[i..], vis) + base
    ensures ns[i] in vis ==> Reverse(stack) == Unvisited(ns[i..], vis) + base
  {
    UnvisitedFrom(ns, i, vis);
    PushOne(stack, ns[i], ns[i] in vis, Unvisited(ns[i + 1..], vis), Unvisited(ns[i..], vis), base);
  }

  /** Pushing `x` unless it is skipped puts it in front of the reversed stack. */
  lemma PushOne(stack: seq<Id>, x: Id, skip: bool, u: seq<Id>, w: seq<Id>, base: seq<Id>)
    requires Reverse(stack) == u + base && w == (if skip then [] else [x]) + u
    ensures !skip ==> Reverse(stack + [x]) == w + base
    ensures skip ==> Reverse(stack) == w + base
  {
    ReverseSnoc(stack, x);
  }

  /**
   * The neighbour loop of `bfs`: each neighbour not yet visited is marked
   * and enqueued, in list order.
   */
  method EnqueueNeighbours(neighbors: seq<Id>, queueIn: seq<Id>, visitedIn: set<Id>)
    returns (queue: seq<Id>, visited: set<Id>)
    ensures queue == queueIn + Enqueued(neighbors, visitedIn)
    ensures visited == visitedIn + Elems(Enqueued(neighbors, visitedIn))
  {
    queue, visited := queueIn, visitedIn;
    for i := 0 to |neighbors|
      invariant queue + Enqueued(neighbors[i..], visited) == queueIn + Enqueued(neighbors, visitedIn)
      invariant visited + Elems(Enqueued(neighbors[i..], visited))
             == visitedIn + Elems(Enqueued(neighbors, visitedIn))
    {
      EnqueueStep(neighbors, i, queue, visited, queueIn + Enqueued(neighbors, visitedIn),
                  visitedIn + Elems(Enqueued(neighbors, visitedIn)));
      if neighbors[i] !in visited {
        visited := visited + {neighbors[i]};
        queue := queue + [neighbors[i]];
      }
    }
    assert neighbors[|neighbors|..] == [];
  }

  /** One pass of `EnqueueNeighbours`' loop keeps its invariants. */
  lemma EnqueueStep(ns: seq<Id>, i: nat, queue: seq<Id>, vis: set<Id>, goal: seq<Id>, marked: set<Id>)
    requires i < |ns|
    requires queue + Enqueued(ns[i..], vis) == goal && vis + Elems(Enqueued(ns[i..], vis)) == marked
    ensures ns[i] in vis ==>
      queue + Enqueued(ns[i + 1..], vis) == goal && vis + Elems(Enqueued(ns[i + 1..], vis)) == marked
    ensures ns[i] !in vis ==> var vis' := vis + {ns[i]};
      (queue + [ns[i]]) + Enqueued(ns[i + 1..], vis') == goal && vis' + Elems(Enqueued(ns[i + 1..], vis')) == marked
  {
    EnqueuedFrom(ns, i, vis);
    if ns[i] !in vis {
      var rest := Enqueued(ns[i + 1..], vis + {ns[i]});
      assert queue + ([ns[i]] + rest) == (queue + [ns[i]]) + rest;
      ElemsAppend([ns[i]], rest);
      assert Elems([ns[i]]) == {ns[i]};
    }
  }

}
