/**
 * The value held by a `Graph`: its `adjacencyList` Map, written as the key
 * order of the Map (`keys`, first-insertion order) together with the
 * key-to-neighbour-list mapping (`adj`). Each mutator of the class is
 * specified here by a function from the old value to the new one, and the
 * invariant every mutator keeps is proved once, on values.
 */
module Adjacency {
  import opened Ids
  import opened Seqs

  datatype AdjacencyList = AdjacencyList(keys: seq<Id>, adj: map<Id, seq<Id>>)

  /** `new Map()`. */
  const Empty: AdjacencyList := AdjacencyList([], map[])

  /** `adjacencyList.get(v) || []`. */
  function Neighbours(adj: map<Id, seq<Id>>, v: Id): (r: seq<Id>)
    ensures r != [] ==> v in adj
    ensures Closed(adj) ==> Elems(r) <= adj.Keys
  {
    if v in adj then adj[v] else []
  }

  /** `hasEdge(u, v)`: `u` is known and `v` occurs in its list. */
  predicate HasEdge(s: AdjacencyList, u: Id, v: Id)
    ensures HasEdge(s, u, v) <==> Count(Neighbours(s.adj, u), v) > 0
  {
    u in s.adj && v in s.adj[u]
  }

  /** Every stored neighbour is itself a known vertex. */
  ghost predicate Closed(adj: map<Id, seq<Id>>)
  {
    forall u, w :: u in adj && w in adj[u] ==> w in adj
  }

  /** Undirected storage: `v` occurs in `u`'s list as often as `u` in `v`'s. */
  ghost predicate Symmetric(adj: map<Id, seq<Id>>)
  {
    forall u, v :: u in adj && v in adj ==> Count(adj[u], v) == Count(adj[v], u)
  }

  /** An undirected self-loop is stored twice in its vertex's list. */
  ghost predicate EvenSelfLoops(adj: map<Id, seq<Id>>)
  {
    forall u :: u in adj ==> Count(adj[u], u) % 2 == 0
  }

  /** Sum of the list lengths of `ks`, in the order the Map yields them. */
  function SumLengths(ks: seq<Id>, adj: map<Id, seq<Id>>): (n: nat)
    ensures forall k {:trigger Count(ks, k)} :: Count(ks, k) > 0 ==> |Neighbours(adj, k)| <= n
  {
    if ks == [] then 0
    else
      var p := ks[..|ks| - 1];
      assert multiset(ks) == multiset(p) + multiset{ks[|ks| - 1]} by { assert ks == p + [ks[|ks| - 1]]; }
      assert forall k {:trigger Count(ks, k)} :: Count(ks, k) == Count(p, k) + (if k == ks[|ks| - 1] then 1 else 0);
      SumLengths(p, adj) + |Neighbours(adj, ks[|ks| - 1])|
  }

  /** Total number of stored list entries. */
  function Entries(s: AdjacencyList): (n: nat)
    ensures forall k {:trigger Count(s.keys, k)} :: Count(s.keys, k) > 0 ==> |Neighbours(s.adj, k)| <= n
  {
    SumLengths(s.keys, s.adj)
  }

  /** The invariant every public operation of `Graph` keeps. */
  ghost predicate Inv(s: AdjacencyList, directed: bool)
  {
    && Distinct(s.keys)
    && (forall k :: k in s.adj <==> k in s.keys)
    && Closed(s.adj)
    && (!directed ==> Symmetric(s.adj) && EvenSelfLoops(s.adj) && Entries(s) % 2 == 0)
  }

  /** `getEdgeCount()`: entries, halved for an undirected graph. */
  function EdgeCountOf(s: AdjacencyList, directed: bool): (n: nat)
    ensures directed ==> n == Entries(s)
    ensures !directed ==> 2 * n <= Entries(s) <= 2 * n + 1
  {
    if directed then Entries(s) else Entries(s) / 2
  }

  /** `addVertex(v)`: a new key gets `[]` at the end of the key order. */
  function AddVertexOf(s: AdjacencyList, v: Id): (r: AdjacencyList)
    ensures r.adj.Keys == s.adj.Keys + {v}
  {
    if v in s.adj then s else AdjacencyList(s.keys + [v], s.adj[v := []])
  }

  /**
   * `addEdge(u, v)`: add both endpoints, then push the edge.
   */
  function AddEdgeOf(s: AdjacencyList, directed: bool, u: Id, v: Id): (r: AdjacencyList)
    ensures r.adj.Keys == s.adj.Keys + {u, v}
  {
    PushEdge(AddVertexOf(AddVertexOf(s, u), v), directed, u, v)
  }

  /**
   * Push `v` onto `u`'s list and, when undirected, `u` onto `v`'s list
   * (the same list again when `u == v`); both endpoints are known.
   */
  function PushEdge(s: AdjacencyList, directed: bool, u: Id, v: Id): (r: AdjacencyList)
    requires u in s.adj && v in s.adj
    ensures r.keys == s.keys && r.adj.Keys == s.adj.Keys
  {
    var a1 := s.adj[u := s.adj[u] + [v]];
    var a2 := if directed then a1 else a1[v := a1[v] + [u]];
    AdjacencyList(s.keys, a2)
  }

  /**
   * `removeEdge(u, v)`: filter every `v` out of `u`'s list when `u` is
   * known; when undirected and `v` is known, filter every `u` out of `v`'s.
   */
  function RemoveEdgeOf(s: AdjacencyList, directed: bool, u: Id, v: Id): (r: AdjacencyList)
    ensures r.keys == s.keys && r.adj.Keys == s.adj.Keys
  {
    var a1 := if u in s.adj then s.adj[u := RemoveAll(s.adj[u], v)] else s.adj;
    var a2 := if !directed && v in a1 then a1[v := RemoveAll(a1[v], u)] else a1;
    AdjacencyList(s.keys, a2)
  }

  /** `removeEdge(k, x)` for each `k` of `ks` in turn. */
  function RemoveEdgesTo(s: AdjacencyList, directed: bool, ks: seq<Id>, x: Id): (r: AdjacencyList)
    ensures r.keys == s.keys && r.adj.Keys == s.adj.Keys
  {
    if ks == [] then s
    else RemoveEdgeOf(RemoveEdgesTo(s, directed, ks[..|ks| - 1], x), directed, ks[|ks| - 1], x)
  }

  /**
   * `removeVertex(x)`: nothing when `x` is unknown; otherwise
   * `removeEdge(k, x)` for every key `k`, then delete `x` from the Map.
   */
  function RemoveVertexOf(s: AdjacencyList, directed: bool, x: Id): (r: AdjacencyList)
    ensures r.adj.Keys == s.adj.Keys - {x}
  {
    if x !in s.adj then s
    else
      var t := RemoveEdgesTo(s, directed, s.keys, x);
      AdjacencyList(RemoveAll(t.keys, x), t.adj - {x})
  }

  // ---------------------------------------------------------------------
  // Sums of list lengths

  lemma {:induction false} SumUpdateAbsent(ks: seq<Id>, adj: map<Id, seq<Id>>, k: Id, x: seq<Id>)
    requires k !in ks
    ensures SumLengths(ks, adj[k := x]) == SumLengths(ks, adj)
  {
    if ks != [] {
      SumUpdateAbsent(ks[..|ks| - 1], adj, k, x);
    }
  }

  /** Replacing one key's list changes the sum by the difference in length. */
  lemma {:induction false} SumUpdate(ks: seq<Id>, adj: map<Id, seq<Id>>, k: Id, x: seq<Id>)
    requires Distinct(ks) && k in ks
    ensures SumLengths(ks, adj[k := x]) + |Neighbours(adj, k)| == SumLengths(ks, adj) + |x|
  {
    var p := ks[..|ks| - 1];
    if ks[|ks| - 1] == k {
      assert k !in p;
      SumUpdateAbsent(p, adj, k, x);
    } else {
      assert k in p;
      SumUpdate(p, adj, k, x);
    }
  }

  lemma {:induction false} RemoveAllSnoc(p: seq<Id>, y: Id, x: Id)
    ensures RemoveAll(p + [y], x) == RemoveAll(p, x) + (if y == x then [] else [y])
  {
    if p == [] {
      assert p + [y] == [y];
    } else {
      assert (p + [y])[1..] == p[1..] + [y];
      RemoveAllSnoc(p[1..], y, x);
    }
  }

  /** Deleting a key whose list is empty leaves the sum unchanged. */
  lemma {:induction false} SumDeleteEmpty(ks: seq<Id>, adj: map<Id, seq<Id>>, x: Id)
    requires |Neighbours(adj, x)| == 0
    ensures SumLengths(RemoveAll(ks, x), adj - {x}) == SumLengths(ks, adj)
  {
    if ks != [] {
      var p, y := ks[..|ks| - 1], ks[|ks| - 1];
      assert ks == p + [y];
      SumDeleteEmpty(p, adj, x);
      SumDeleteStep(p, y, adj, x);
    }
  }

  lemma NeighboursDelete(adj: map<Id, seq<Id>>, x: Id, y: Id)
    requires y != x
    ensures Neighbours(adj - {x}, y) == Neighbours(adj, y)
  {
  }

  /** One more key keeps the sums before and after the deletion equal. */
  lemma SumDeleteStep(p: seq<Id>, y: Id, adj: map<Id, seq<Id>>, x: Id)
    requires |Neighbours(adj, x)| == 0
    requires SumLengths(RemoveAll(p, x), adj - {x}) == SumLengths(p, adj)
    ensures SumLengths(RemoveAll(p + [y], x), adj - {x}) == SumLengths(p + [y], adj)
  {
    RemoveAllSnoc(p, y, x);
    SumSnoc(p, y, adj);
    var q := RemoveAll(p, x);
    if y != x {
      assert RemoveAll(p + [y], x) == q + [y];
      SumSnoc(q, y, adj - {x});
      NeighboursDelete(adj, x, y);
    } else {
      assert RemoveAll(p + [y], x) == q;
    }
  }

  lemma SumSnoc(ks: seq<Id>, y: Id, adj: map<Id, seq<Id>>)
    ensures SumLengths(ks + [y], adj) == SumLengths(ks, adj) + |Neighbours(adj, y)|
  {
    assert (ks + [y])[..|ks|] == ks;
  }


  // ---------------------------------------------------------------------
  // addVertex

  lemma AddVertexKeepsInv(s: AdjacencyList, directed: bool, v: Id)
    requires Inv(s, directed)
    ensures Inv(AddVertexOf(s, v), directed)
  {
    if v !in s.adj {
      var r := AddVertexOf(s, v);
      AddVertexShape(s, v);
      if !directed {
        AddVertexSymmetric(s, v);
        SumUpdateAbsent(s.keys, s.adj, v, []);
        SumSnoc(s.keys, v, s.adj[v := []]);
      }
    }
  }

  /** A new vertex goes last, with an empty list, and no list gains an entry. */
  lemma AddVertexShape(s: AdjacencyList, v: Id)
    requires Distinct(s.keys) && (forall k :: k in s.adj <==> k in s.keys) && Closed(s.adj) && v !in s.adj
    ensures var r := AddVertexOf(s, v);
      Distinct(r.keys) && (forall k :: k in r.adj <==> k in r.keys) && Closed(r.adj)
  {
    var r := AddVertexOf(s, v);
    assert r.keys == s.keys + [v] && r.adj == s.adj[v := []];
    forall i, j | 0 <= i < j < |r.keys| ensures r.keys[i] != r.keys[j] {
      if j == |s.keys| {
        assert r.keys[i] == s.keys[i];
      }
    }
    forall u, w | u in r.adj && w in r.adj[u] ensures w in r.adj {
      assert u != v;
      assert w in s.adj[u];
    }
  }

  lemma AddVertexSymmetric(s: AdjacencyList, v: Id)
    requires Closed(s.adj) && Symmetric(s.adj) && EvenSelfLoops(s.adj) && v !in s.adj
    ensures Symmetric(s.adj[v := []]) && EvenSelfLoops(s.adj[v := []])
  {
    var a := s.adj[v := []];
    forall p, q | p in a && q in a ensures Count(a[p], q) == Count(a[q], p) {
      if p == v || q == v {
        assert v !in Neighbours(s.adj, p) && v !in Neighbours(s.adj, q);
      } else {
        assert Count(s.adj[p], q) == Count(s.adj[q], p);
      }
    }
    forall p | p in a ensures Count(a[p], p) % 2 == 0 {
      if p != v {
        assert Count(s.adj[p], p) % 2 == 0;
      }
    }
  }


  /**
   * `addVertex` is idempotent, keeps every existing list and the key
   * order, and appends a new vertex with no neighbours at the end.
   */
  lemma AddVertexSpec(s: AdjacencyList, v: Id)
    ensures AddVertexOf(AddVertexOf(s, v), v) == AddVertexOf(s, v)
    ensures v in s.adj ==> AddVertexOf(s, v) == s
    ensures v !in s.adj ==> AddVertexOf(s, v).keys == s.keys + [v] && AddVertexOf(s, v).adj[v] == []
    ensures forall w :: w in s.adj ==> AddVertexOf(s, v).adj[w] == s.adj[w]
  {
  }

  // ---------------------------------------------------------------------
  // addEdge

  lemma AddVertexEntries(s: AdjacencyList, directed: bool, v: Id)
    requires Inv(s, directed)
    ensures Entries(AddVertexOf(s, v)) == Entries(s)
  {
    if v !in s.adj {
      var r := AddVertexOf(s, v);
      SumUpdateAbsent(s.keys, s.adj, v, []);
      assert r.keys[..|r.keys| - 1] == s.keys;
    }
  }

  /** Each pushed list gains exactly the pushed entries at its end. */
  lemma PushEdgeLists(s: AdjacencyList, directed: bool, u: Id, v: Id, a: Id)
    requires u in s.adj && v in s.adj && a in s.adj
    ensures PushEdge(s, directed, u, v).adj[a]
      == s.adj[a] + (if a == u then [v] else []) + (if !directed && a == v then [u] else [])
  {
  }

  /** Occurrence counts after a push: one more `v` in `u`'s list, one more `u` in `v`'s. */
  lemma PushEdgeCount(s: AdjacencyList, directed: bool, u: Id, v: Id, a: Id, b: Id)
    requires u in s.adj && v in s.adj && a in s.adj
    ensures Count(PushEdge(s, directed, u, v).adj[a], b) == Count(s.adj[a], b)
      + (if a == u && b == v then 1 else 0) + (if !directed && a == v && b == u then 1 else 0)
  {
    PushEdgeLists(s, directed, u, v, a);
  }

  lemma PushEdgeClosed(s: AdjacencyList, directed: bool, u: Id, v: Id)
    requires Closed(s.adj) && u in s.adj && v in s.adj
    ensures Closed(PushEdge(s, directed, u, v).adj)
  {
    var r := PushEdge(s, directed, u, v);
    forall a, w | a in r.adj && w in r.adj[a] ensures w in r.adj {
      PushEdgeLists(s, directed, u, v, a);
      if w != u && w != v {
        assert w in s.adj[a];
      }
    }
  }

  lemma PushEdgeSymmetric(s: AdjacencyList, u: Id, v: Id)
    requires Symmetric(s.adj) && EvenSelfLoops(s.adj) && u in s.adj && v in s.adj
    ensures Symmetric(PushEdge(s, false, u, v).adj)
    ensures EvenSelfLoops(PushEdge(s, false, u, v).adj)
  {
    PushEdgeCounts(s, u, v);
    PushEdgeSelfLoops(s, u, v);
  }

  lemma PushEdgeCounts(s: AdjacencyList, u: Id, v: Id)
    requires Symmetric(s.adj) && u in s.adj && v in s.adj
    ensures Symmetric(PushEdge(s, false, u, v).adj)
  {
    var r := PushEdge(s, false, u, v);
    forall a, b | a in r.adj && b in r.adj ensures Count(r.adj[a], b) == Count(r.adj[b], a) {
      PushEdgeCount(s, false, u, v, a, b);
      PushEdgeCount(s, false, u, v, b, a);
    }
  }

  lemma PushEdgeSelfLoops(s: AdjacencyList, u: Id, v: Id)
    requires EvenSelfLoops(s.adj) && u in s.adj && v in s.adj
    ensures EvenSelfLoops(PushEdge(s, false, u, v).adj)
  {
    var r := PushEdge(s, false, u, v);
    forall a | a in r.adj ensures Count(r.adj[a], a) % 2 == 0 {
      PushEdgeCount(s, false, u, v, a, a);
      if a == u && a == v {
        EvenPlusTwo(Count(s.adj[a], a), Count(r.adj[a], a));
      }
    }
  }


  lemma PushEdgeEntries(s: AdjacencyList, directed: bool, u: Id, v: Id)
    requires Distinct(s.keys) && u in s.keys && v in s.keys && u in s.adj && v in s.adj
    ensures Entries(PushEdge(s, directed, u, v)) == Entries(s) + (if directed then 1 else 2)
  {
    var r := PushEdge(s, directed, u, v);
    var a1 := s.adj[u := s.adj[u] + [v]];
    SumUpdate(s.keys, s.adj, u, s.adj[u] + [v]);
    if !directed {
      SumUpdate(s.keys, a1, v, a1[v] + [u]);
      assert r.adj == a1[v := a1[v] + [u]];
    } else {
      assert r.adj == a1;
    }
  }

  lemma PushEdgeKeepsInv(s: AdjacencyList, directed: bool, u: Id, v: Id)
    requires Inv(s, directed) && u in s.adj && v in s.adj
    ensures Inv(PushEdge(s, directed, u, v), directed)
    ensures Entries(PushEdge(s, directed, u, v)) == Entries(s) + (if directed then 1 else 2)
  {
    var r := PushEdge(s, directed, u, v);
    PushEdgeClosed(s, directed, u, v);
    PushEdgeEntries(s, directed, u, v);
    if !directed {
      PushEdgeSymmetric(s, u, v);
    }
    if !directed {
      var e, e2 := Entries(s), Entries(r);
      EvenPlusTwo(e, e2);
    }
  }

  lemma EvenPlusTwo(n: int, m: int)
    requires n % 2 == 0 && m == n + 2
    ensures m % 2 == 0
  {
  }

  lemma AddEdgeKeepsInv(s: AdjacencyList, directed: bool, u: Id, v: Id)
    requires Inv(s, directed)
    ensures Inv(AddEdgeOf(s, directed, u, v), directed)
    ensures Entries(AddEdgeOf(s, directed, u, v)) == Entries(s) + (if directed then 1 else 2)
  {
    AddVertexKeepsInv(s, directed, u);
    AddVertexEntries(s, directed, u);
    var s0 := AddVertexOf(s, u);
    AddVertexKeepsInv(s0, directed, v);
    AddVertexEntries(s0, directed, v);
    PushEdgeKeepsInv(AddVertexOf(s0, v), directed, u, v);
  }

  /**
   * After `addEdge(u, v)` the missing endpoints are appended to the key
   * order, `u`'s list ends with `v`, an undirected graph also has `u` at
   * the end of `v`'s list (twice in `u`'s own list for a self-loop), and
   * every other list is unchanged.
   */
  lemma AddEdgeSpec(s: AdjacencyList, directed: bool, u: Id, v: Id)
    ensures var r := AddEdgeOf(s, directed, u, v);
      && r.keys == s.keys + (if u in s.adj then [] else [u]) + (if v in s.adj || v == u then [] else [v])
      && r.adj[u] == Neighbours(s.adj, u) + [v] + (if !directed && u == v then [u] else [])
      && (!directed && u != v ==> r.adj[v] == Neighbours(s.adj, v) + [u])
      && (directed && u != v ==> r.adj[v] == Neighbours(s.adj, v))
      && (forall w :: w in s.adj && w != u && (directed || w != v) ==> r.adj[w] == s.adj[w])
  {
    var s0 := AddVertexOf(s, u);
    var s1 := AddVertexOf(s0, v);
    assert s1.adj[u] == Neighbours(s.adj, u);
    PushEdgeLists(s1, directed, u, v, u);
    if !directed && u != v {
      assert s1.adj[v] == Neighbours(s.adj, v);
      PushEdgeLists(s1, directed, u, v, v);
    }
    forall w | w in s.adj && w != u && (directed || w != v)
      ensures AddEdgeOf(s, directed, u, v).adj[w] == s.adj[w]
    {
      PushEdgeLists(s1, directed, u, v, w);
    }
  }

  /**
   * `addEdge(u, v)` adds one occurrence of `v` to `u`'s list even when the
   * edge was there already (two for an undirected self-loop), after which
   * `hasEdge(u, v)` holds, and for an undirected graph `hasEdge(v, u)`.
   */
  lemma AddEdgeHasEdge(s: AdjacencyList, directed: bool, u: Id, v: Id)
    ensures var r := AddEdgeOf(s, directed, u, v);
      && Count(r.adj[u], v) == Count(Neighbours(s.adj, u), v) + (if !directed && u == v then 2 else 1)
      && HasEdge(r, u, v) && (!directed ==> HasEdge(r, v, u))
  {
    var s1 := AddVertexOf(AddVertexOf(s, u), v);
    var r := AddEdgeOf(s, directed, u, v);
    assert s1.adj[u] == Neighbours(s.adj, u);
    PushEdgeCount(s1, directed, u, v, u, v);
    assert v in multiset(r.adj[u]);
    if !directed {
      PushEdgeCount(s1, directed, u, v, v, u);
      assert u in multiset(r.adj[v]);
    }
  }

  /** Each `addEdge` call adds exactly one to `getEdgeCount()`. */
  lemma AddEdgeCount(s: AdjacencyList, directed: bool, u: Id, v: Id)
    requires Inv(s, directed)
    ensures EdgeCountOf(AddEdgeOf(s, directed, u, v), directed) == EdgeCountOf(s, directed) + 1
  {
    AddEdgeKeepsInv(s, directed, u, v);
  }

  // ---------------------------------------------------------------------
  // removeEdge

  /** The list of each known vertex after `removeEdge(u, v)`. */
  lemma RemoveEdgeLists(s: AdjacencyList, directed: bool, u: Id, v: Id, a: Id)
    requires a in s.adj
    ensures RemoveEdgeOf(s, directed, u, v).adj[a] ==
      if a == u then RemoveAll(s.adj[a], v)
      else if !directed && a == v then RemoveAll(s.adj[a], u)
      else s.adj[a]
  {
    var r := RemoveEdgeOf(s, directed, u, v);
    var a1 := if u in s.adj then s.adj[u := RemoveAll(s.adj[u], v)] else s.adj;
    if a == u && !directed && a == v {
      var once := RemoveAll(s.adj[a], v);
      assert multiset(once)[u] == 0;
      RemoveAllAbsent(once, u);
      assert a1[v] == once && r.adj[a] == RemoveAll(once, u);
    } else if a == u {
      assert r.adj[a] == a1[a];
    }
  }

  /** Exactly the `u`-to-`v` (and, undirected, `v`-to-`u`) entries vanish. */
  lemma RemoveEdgeCounts(s: AdjacencyList, directed: bool, u: Id, v: Id, a: Id, b: Id)
    requires a in s.adj
    ensures Count(RemoveEdgeOf(s, directed, u, v).adj[a], b) ==
      if (a == u && b == v) || (!directed && a == v && b == u) then 0 else Count(s.adj[a], b)
  {
    RemoveEdgeLists(s, directed, u, v, a);
  }

  lemma RemoveEdgeClosed(s: AdjacencyList, directed: bool, u: Id, v: Id)
    requires Closed(s.adj)
    ensures Closed(RemoveEdgeOf(s, directed, u, v).adj)
  {
    var r := RemoveEdgeOf(s, directed, u, v);
    forall a, w | a in r.adj && w in r.adj[a] ensures w in r.adj {
      RemoveEdgeLists(s, directed, u, v, a);
      assert w in multiset(r.adj[a]);
      assert w in s.adj[a];
    }
  }

  lemma RemoveEdgeSymmetric(s: AdjacencyList, u: Id, v: Id)
    requires Symmetric(s.adj) && EvenSelfLoops(s.adj)
    ensures Symmetric(RemoveEdgeOf(s, false, u, v).adj)
    ensures EvenSelfLoops(RemoveEdgeOf(s, false, u, v).adj)
  {
    RemoveEdgeKeepsCounts(s, u, v);
    RemoveEdgeSelfLoops(s, u, v);
  }

  lemma RemoveEdgeKeepsCounts(s: AdjacencyList, u: Id, v: Id)
    requires Symmetric(s.adj)
    ensures Symmetric(RemoveEdgeOf(s, false, u, v).adj)
  {
    var r := RemoveEdgeOf(s, false, u, v);
    forall a, b | a in r.adj && b in r.adj ensures Count(r.adj[a], b) == Count(r.adj[b], a) {
      RemoveEdgeCounts(s, false, u, v, a, b);
      RemoveEdgeCounts(s, false, u, v, b, a);
    }
  }

  lemma RemoveEdgeSelfLoops(s: AdjacencyList, u: Id, v: Id)
    requires EvenSelfLoops(s.adj)
    ensures EvenSelfLoops(RemoveEdgeOf(s, false, u, v).adj)
  {
    var r := RemoveEdgeOf(s, false, u, v);
    forall a | a in r.adj ensures Count(r.adj[a], a) % 2 == 0 {
      RemoveEdgeCounts(s, false, u, v, a, a);
    }
  }


  /** How many list entries an undirected `removeEdge(u, v)` drops. */
  function Dropped(s: AdjacencyList, u: Id, v: Id): nat
  {
    (if u in s.adj then Count(s.adj[u], v) else 0)
    + (if v in s.adj && v != u then Count(s.adj[v], u) else 0)
  }

  lemma RemoveEdgeSum(s: AdjacencyList, u: Id, v: Id)
    requires Distinct(s.keys) && forall k :: k in s.adj <==> k in s.keys
    ensures Entries(RemoveEdgeOf(s, false, u, v)) + Dropped(s, u, v) == Entries(s)
  {
    var r := RemoveEdgeOf(s, false, u, v);
    var a1 := if u in s.adj then s.adj[u := RemoveAll(s.adj[u], v)] else s.adj;
    var e1 := SumLengths(s.keys, a1);
    if u in s.adj {
      SumUpdate(s.keys, s.adj, u, RemoveAll(s.adj[u], v));
    }
    assert e1 + (if u in s.adj then Count(s.adj[u], v) else 0) == Entries(s);
    if v in a1 {
      SumUpdate(s.keys, a1, v, RemoveAll(a1[v], u));
      assert r.adj == a1[v := RemoveAll(a1[v], u)];
      if v == u {
        assert Count(a1[v], u) == 0;
      } else {
        assert a1[v] == s.adj[v];
      }
    } else {
      assert r.adj == a1;
    }
  }

  /** Undirected: the entries removed come in pairs, so the total stays even. */
  lemma RemoveEdgeEntries(s: AdjacencyList, u: Id, v: Id)
    requires Inv(s, false)
    ensures Entries(RemoveEdgeOf(s, false, u, v)) % 2 == 0
  {
    RemoveEdgeSum(s, u, v);
    DroppedEven(s, u, v);
    EvenMinusEven(Entries(s), Dropped(s, u, v), Entries(RemoveEdgeOf(s, false, u, v)));
  }

  lemma DroppedEven(s: AdjacencyList, u: Id, v: Id)
    requires Closed(s.adj) && Symmetric(s.adj) && EvenSelfLoops(s.adj)
    ensures Dropped(s, u, v) % 2 == 0
  {
    if u in s.adj && v in s.adj && u != v {
      assert Count(s.adj[u], v) == Count(s.adj[v], u);
    } else if u in s.adj && v !in s.adj {
      assert v !in s.adj[u];
    } else if u !in s.adj && v in s.adj {
      assert u !in s.adj[v];
    }
  }

  lemma EvenMinusEven(n: int, k: int, m: int)
    requires n % 2 == 0 && k % 2 == 0 && m == n - k
    ensures m % 2 == 0
  {
  }

  lemma RemoveEdgeKeepsInv(s: AdjacencyList, directed: bool, u: Id, v: Id)
    requires Inv(s, directed)
    ensures Inv(RemoveEdgeOf(s, directed, u, v), directed)
  {
    RemoveEdgeClosed(s, directed, u, v);
    if !directed {
      RemoveEdgeSymmetric(s, u, v);
      RemoveEdgeEntries(s, u, v);
    }
  }

  /**
   * After `removeEdge(u, v)`: `hasEdge(u, v)` is false (and, undirected,
   * `hasEdge(v, u)`); `u`'s list is the old one with every `v` filtered
   * out (order kept, see `RemoveAllKeepsOrder`), and when undirected `v`'s
   * list lost every `u`; keys, key order and all other lists are unchanged.
   */
  lemma RemoveEdgeSpec(s: AdjacencyList, directed: bool, u: Id, v: Id)
    ensures var r := RemoveEdgeOf(s, directed, u, v);
      && r.keys == s.keys && r.adj.Keys == s.adj.Keys
      && !HasEdge(r, u, v) && (!directed ==> !HasEdge(r, v, u))
      && (u in s.adj ==> r.adj[u] == RemoveAll(s.adj[u], v))
      && (!directed && v in s.adj ==> r.adj[v] == RemoveAll(s.adj[v], u))
      && (forall w :: w in s.adj && w != u && (directed || w != v) ==> r.adj[w] == s.adj[w])
  {
    var r := RemoveEdgeOf(s, directed, u, v);
    if u in s.adj {
      RemoveEdgeCounts(s, directed, u, v, u, v);
      assert v !in multiset(r.adj[u]);
    }
    if !directed && v in s.adj {
      RemoveEdgeCounts(s, directed, u, v, v, u);
      assert u !in multiset(r.adj[v]);
      RemoveEdgeLists(s, directed, u, v, v);
    }
    forall w | w in s.adj && w != u && (directed || w != v) ensures r.adj[w] == s.adj[w] {
      RemoveEdgeLists(s, directed, u, v, w);
    }
  }

  /**
   * `removeEdge` with an unknown endpoint changes nothing: an unknown
   * vertex occurs in no list, so there is nothing to filter out.
   */
  lemma RemoveEdgeUnknown(s: AdjacencyList, directed: bool, u: Id, v: Id)
    requires Inv(s, directed) && (u !in s.adj || v !in s.adj)
    ensures RemoveEdgeOf(s, directed, u, v) == s
  {
    var r := RemoveEdgeOf(s, directed, u, v);
    forall a | a in s.adj ensures r.adj[a] == s.adj[a] {
      RemoveEdgeLists(s, directed, u, v, a);
      if a == u {
        assert v !in s.adj[a];
        RemoveAllAbsent(s.adj[a], v);
      } else if !directed && a == v {
        assert u !in s.adj[a];
        RemoveAllAbsent(s.adj[a], u);
      }
    }
    assert r.adj == s.adj;
  }

  /** `removeEdge(u, v)` when there is no edge from `u` to `v` leaves the graph unchanged. */
  lemma RemoveEdgeAbsent(s: AdjacencyList, directed: bool, u: Id, v: Id)
    requires Inv(s, directed) && !HasEdge(s, u, v)
    ensures RemoveEdgeOf(s, directed, u, v) == s
  {
    var r := RemoveEdgeOf(s, directed, u, v);
    if !directed && v in s.adj {
      if u in s.adj {
        assert multiset(s.adj[u])[v] == 0;
        assert Count(s.adj[v], u) == Count(s.adj[u], v);
      }
      assert u !in s.adj[v];
    }
    forall a | a in s.adj ensures r.adj[a] == s.adj[a] {
      RemoveEdgeAbsentList(s, directed, u, v, a);
    }
    assert r.adj == s.adj;
  }

  /** One list under `removeEdge(u, v)` when neither filter finds anything to drop. */
  lemma RemoveEdgeAbsentList(s: AdjacencyList, directed: bool, u: Id, v: Id, a: Id)
    requires a in s.adj && !HasEdge(s, u, v) && (!directed && a == v ==> u !in s.adj[a])
    ensures RemoveEdgeOf(s, directed, u, v).adj[a] == s.adj[a]
  {
    RemoveEdgeLists(s, directed, u, v, a);
    if a == u {
      RemoveAllAbsent(s.adj[a], v);
    } else if !directed && a == v {
      RemoveAllAbsent(s.adj[a], u);
    }
  }

  // ---------------------------------------------------------------------
  // removeVertex

  lemma {:induction false} RemoveEdgesToKeepsInv(s: AdjacencyList, directed: bool, ks: seq<Id>, x: Id)
    requires Inv(s, directed)
    ensures Inv(RemoveEdgesTo(s, directed, ks, x), directed)
  {
    if ks != [] {
      RemoveEdgesToKeepsInv(s, directed, ks[..|ks| - 1], x);
      RemoveEdgeKeepsInv(RemoveEdgesTo(s, directed, ks[..|ks| - 1], x), directed, ks[|ks| - 1], x);
    }
  }

  /**
   * After `removeEdge(k, x)` for every `k` of `ks`, each list other than
   * `x`'s has lost every `x` if its key was processed and is unchanged
   * otherwise.
   */
  lemma {:induction false} RemoveEdgesToOthers(s: AdjacencyList, directed: bool, ks: seq<Id>, x: Id, j: Id)
    requires j in s.adj && j != x
    ensures RemoveEdgesTo(s, directed, ks, x).adj[j] ==
      if j in ks then RemoveAll(s.adj[j], x) else s.adj[j]
  {
    if ks != [] {
      var p, k := ks[..|ks| - 1], ks[|ks| - 1];
      assert ks == p + [k];
      RemoveEdgesToOthers(s, directed, p, x, j);
      var t0 := RemoveEdgesTo(s, directed, p, x);
      RemoveEdgeLists(t0, directed, k, x, j);
      if j == k && k in p {
        RemoveAllAbsent(RemoveAll(s.adj[j], x), x);
      }
    }
  }

  /** Undirected: `x`'s own list holds none of the processed keys. */
  lemma {:induction false} RemoveEdgesToSelf(s: AdjacencyList, ks: seq<Id>, x: Id, j: Id)
    requires x in s.adj && j in ks
    ensures j !in RemoveEdgesTo(s, false, ks, x).adj[x]
  {
    var p, k := ks[..|ks| - 1], ks[|ks| - 1];
    assert ks == p + [k];
    var t0 := RemoveEdgesTo(s, false, p, x);
    RemoveEdgeLists(t0, false, k, x, x);
    var l := RemoveEdgesTo(s, false, ks, x).adj[x];
    if j == k {
      assert j !in multiset(l);
    } else {
      RemoveEdgesToSelf(s, p, x, j);
      assert j !in multiset(t0.adj[x]);
      assert j !in multiset(l);
    }
  }

  lemma RemoveVertexKeepsInv(s: AdjacencyList, directed: bool, x: Id)
    requires Inv(s, directed)
    ensures Inv(RemoveVertexOf(s, directed, x), directed)
  {
    if x in s.adj {
      var t := RemoveEdgesTo(s, directed, s.keys, x);
      RemoveEdgesToKeepsInv(s, directed, s.keys, x);
      RemoveVertexKeys(s, directed, x);
      RemoveVertexClosed(s, directed, x);
      if !directed {
        forall j | j in t.keys ensures j !in t.adj[x] {
          RemoveEdgesToSelf(s, s.keys, x, j);
        }
        RemoveVertexEntries(t, x);
      }
    }
  }

  lemma RemoveVertexKeys(s: AdjacencyList, directed: bool, x: Id)
    requires Distinct(s.keys) && (forall k :: k in s.adj <==> k in s.keys) && x in s.adj
    ensures var r := RemoveVertexOf(s, directed, x);
      && r.keys == RemoveAll(s.keys, x) && x !in r.keys
      && Distinct(r.keys) && (forall k :: k in r.adj <==> k in r.keys)
  {
    var r := RemoveVertexOf(s, directed, x);
    var t := RemoveEdgesTo(s, directed, s.keys, x);
    assert r.keys == RemoveAll(s.keys, x) && r.adj.Keys == s.adj.Keys - {x};
    RemoveAllDistinct(s.keys, x);
    forall k ensures k in r.adj <==> k in r.keys {
      assert k in r.keys <==> k in multiset(r.keys);
      assert k in s.keys <==> k in multiset(s.keys);
    }
  }

  lemma RemoveVertexLists(s: AdjacencyList, directed: bool, x: Id)
    requires (forall k :: k in s.adj ==> k in s.keys) && x in s.adj
    ensures var r := RemoveVertexOf(s, directed, x);
      && r.adj == (map k | k in s.adj && k != x :: RemoveAll(s.adj[k], x))
      && forall k :: k in r.adj ==> !HasEdge(r, k, x)
  {
    var r := RemoveVertexOf(s, directed, x);
    forall k | k in r.adj ensures r.adj[k] == RemoveAll(s.adj[k], x) && x !in r.adj[k] {
      RemoveVertexList(s, directed, x, k);
    }
    FilteredLists(s.adj, r.adj, x);
  }

  /** A map whose lists are those of `adj` without `x`, on every key but `x`. */
  lemma FilteredLists(adj: map<Id, seq<Id>>, r: map<Id, seq<Id>>, x: Id)
    requires r.Keys == adj.Keys - {x}
    requires forall k :: k in r ==> r[k] == RemoveAll(adj[k], x)
    ensures r == (map k | k in adj && k != x :: RemoveAll(adj[k], x))
  {
  }

  /** One remaining list after `removeVertex(x)`. */
  lemma RemoveVertexList(s: AdjacencyList, directed: bool, x: Id, k: Id)
    requires (forall k :: k in s.adj ==> k in s.keys) && x in s.adj && k in s.adj && k != x
    ensures var r := RemoveVertexOf(s, directed, x);
      k in r.adj && r.adj[k] == RemoveAll(s.adj[k], x) && x !in r.adj[k]
  {
    var t := RemoveEdgesTo(s, directed, s.keys, x);
    RemoveEdgesToOthers(s, directed, s.keys, x, k);
    assert t.adj[k] == RemoveAll(s.adj[k], x);
    assert x !in multiset(t.adj[k]);
  }

  lemma RemoveVertexClosed(s: AdjacencyList, directed: bool, x: Id)
    requires Closed(s.adj) && (forall k :: k in s.adj ==> k in s.keys) && x in s.adj
    ensures Closed(RemoveVertexOf(s, directed, x).adj)
  {
    var r := RemoveVertexOf(s, directed, x);
    RemoveVertexLists(s, directed, x);
    forall a, w | a in r.adj && w in r.adj[a] ensures w in r.adj {
      assert w in multiset(r.adj[a]);
      assert w in s.adj[a];
    }
  }

  /**
   * Undirected: once every key's edge to `x` is gone, `x`'s own list is
   * empty, so deleting `x` keeps the entry total, symmetry and even
   * self-loops.
   */
  lemma RemoveVertexEntries(t: AdjacencyList, x: Id)
    requires Closed(t.adj) && Symmetric(t.adj) && EvenSelfLoops(t.adj)
    requires (forall k :: k in t.adj ==> k in t.keys) && x in t.adj
    requires forall j :: j in t.keys ==> j !in t.adj[x]
    ensures var r := AdjacencyList(RemoveAll(t.keys, x), t.adj - {x});
      Entries(r) == Entries(t) && Symmetric(r.adj) && EvenSelfLoops(r.adj)
  {
    NoKeysEmpty(t.adj[x], t.keys);
    SumDeleteEmpty(t.keys, t.adj, x);
    var a := t.adj - {x};
    forall u, v | u in a && v in a ensures Count(a[u], v) == Count(a[v], u) {
      assert Count(t.adj[u], v) == Count(t.adj[v], u);
    }
    forall u | u in a ensures Count(a[u], u) % 2 == 0 {
      assert Count(t.adj[u], u) % 2 == 0;
    }
  }

  lemma NoKeysEmpty(l: seq<Id>, ks: seq<Id>)
    requires forall w :: w in l ==> w in ks
    requires forall j :: j in ks ==> j !in l
    ensures l == []
  {
    forall w ensures multiset(l)[w] == 0 {
      assert w in l ==> w in ks;
    }
    assert multiset(l) == multiset{};
    assert |l| == |multiset(l)| == 0;
  }

  /**
   * After `removeVertex(x)` of a known `x`: `x` is gone from the key
   * order (the other keys keep theirs), every remaining list is the old
   * one with `x` filtered out, so `x` occurs in no list.
   */
  lemma RemoveVertexSpec(s: AdjacencyList, directed: bool, x: Id)
    requires Inv(s, directed) && x in s.adj
    ensures var r := RemoveVertexOf(s, directed, x);
      && r.keys == RemoveAll(s.keys, x)
      && x !in r.keys && x !in r.adj
      && r.adj == (map k | k in s.adj && k != x :: RemoveAll(s.adj[k], x))
      && (forall k :: k in r.adj ==> !HasEdge(r, k, x))
  {
    RemoveVertexKeys(s, directed, x);
    RemoveVertexLists(s, directed, x);
  }

  /** `removeVertex` of an unknown vertex changes nothing. */
  lemma RemoveVertexUnknown(s: AdjacencyList, directed: bool, x: Id)
    requires x !in s.adj
    ensures RemoveVertexOf(s, directed, x) == s
  {
  }

  // ---------------------------------------------------------------------
  // Counts

  /** `adjacencyList.size` equals the length of `getVertices()`. */
  lemma SizeIsKeyCount(s: AdjacencyList, directed: bool)
    requires Inv(s, directed)
    ensures |s.adj| == |s.keys|
  {
    DistinctCard(s.keys);
    assert s.adj.Keys == Elems(s.keys);
  }

  /** An undirected graph stores every edge twice, so halving is exact. */
  lemma EdgeCountExact(s: AdjacencyList, directed: bool)
    requires Inv(s, directed)
    ensures directed ==> EdgeCountOf(s, directed) == Entries(s)
    ensures !directed ==> 2 * EdgeCountOf(s, directed) == Entries(s)
  {
  }
}
